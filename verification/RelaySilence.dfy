/** When an invalidated token of the relay goes silent. */
module RelaySilence {
  import opened Frames
  import opened Routing
  import opened RelayMachine
  import opened RelayOneLock
  import opened RelaySockets
  import opened Text

  /** Nothing can be looked up under the token's ID any more, and a raw socket with that ID is open only
      until its pending close. */
  ghost predicate Silenced(s: State, id: Bytes) {
    forall o :: 0 <= o < |s.objs| && s.objs[o].sess.tokenID == id ==>
                  && !InTable(s, o) && o !in s.installing
                  && (SocketOpen(s, o) ==> o in s.closing)
  }

  lemma SilencedStep(h: Hash, s: State, e: Event, id: Bytes)
    requires WF(h, s) && Enabled(s, e) && Silenced(s, id)
    requires e.Bind? ==> TokenID(h, e.token) != id
    ensures Silenced(Next(h, s, e), id)
    ensures e.Receive? && Parse(e.datagram).Frame? && Parse(e.datagram).id == id ==> Next(h, s, e) == s
    ensures e.Relock? && Parse(s.main.datagram).id == id ==> Next(h, s, e) == s.(main := Listening)
    ensures e.RawReceive? && s.objs[e.o].sess.tokenID == id ==> e.o in s.closing
  {
    StepFrame(h, s, e);
    var r := Next(h, s, e);
    forall o | 0 <= o < |r.objs| && r.objs[o].sess.tokenID == id
      ensures !InTable(r, o) && o !in r.installing && (SocketOpen(r, o) ==> o in r.closing)
    {
      if o < |s.objs| {
        WhereNow(h, s, e, o);
        SessionsKeepIdentity(h, s, e, o);
      } else {
        NewObject(h, s, e);
      }
    }
  }

  /** No session of the map under another token has the token's ID, the token is not being registered, and no raw socket
      that nothing knows about belongs to it. */
  ghost predicate Silenceable(h: Hash, s: State, token: string) {
    forall o :: 0 <= o < |s.objs| && s.objs[o].sess.tokenID == TokenID(h, token) ==>
                  && (InTable(s, o) ==> s.objs[o].sess.token == token)
                  && o !in s.installing
                  && !Orphan(s, o)
  }

  /** Taking the session out of the map silences its token ID exactly under that condition. */
  lemma UnlinkSilencesIff(h: Hash, s: State, token: string)
    requires WF(h, s) && Placed(s)
    ensures Silenced(Next(h, s, Unlink(token)), TokenID(h, token)) <==> Silenceable(h, s, token)
  {
    var e := Unlink(token);
    StepFrame(h, s, e);
    var r := Next(h, s, e);
    forall o | 0 <= o < |s.objs| && s.objs[o].sess.tokenID == TokenID(h, token)
      ensures (!InTable(r, o) && o !in r.installing && (SocketOpen(r, o) ==> o in r.closing)) <==>
              ((InTable(s, o) ==> s.objs[o].sess.token == token) && o !in s.installing && !Orphan(s, o))
    {
      WhereNow(h, s, e, o);
    }
  }

  lemma {:induction false} StaysSilenced(h: Hash, evs: seq<Event>, n: nat, id: Bytes)
    requires n <= |evs| && Exec(h, evs).Some? && Exec(h, evs[..n]).Some?
    requires Silenced(Exec(h, evs[..n]).value, id)
    requires forall i :: n <= i < |evs| && evs[i].Bind? ==> TokenID(h, evs[i].token) != id
    ensures Silenced(Exec(h, evs).value, id)
  {
    if n == |evs| {
      assert evs[..n] == evs;
    } else {
      var front := evs[..|evs| - 1];
      var s, e := LastStep(h, evs);
      assert front[..n] == evs[..n];
      StaysSilenced(h, front, n, id);
      AlwaysWF(h, front);
      SilencedStep(h, s, e, id);
    }
  }

  /** After an invalidation and until the token is registered again: every packet for the token looked up
      on the main socket is dropped, and the raw socket takes packets only until it is closed. */
  lemma InvalidatedStaysSilent(h: Hash, evs: seq<Event>, n: nat, i: nat, id: Bytes)
    requires n <= i < |evs| && Exec(h, evs).Some? && Exec(h, evs[..n]).Some?
    requires Silenced(Exec(h, evs[..n]).value, id)
    requires forall j :: n <= j < |evs| && evs[j].Bind? ==> TokenID(h, evs[j].token) != id
    ensures Exec(h, evs[..i]).Some? && Dropped(Exec(h, evs[..i]).value, evs[i], id, h)
  {
    var s := StepAt(h, evs, i);
    assert evs[..i][..n] == evs[..n];
    StaysSilenced(h, evs[..i], n, id);
    SilencedStep(h, s, evs[i], id);
  }

  /** Every session object was registered under its token. */
  lemma {:induction false} ObjectWasBound(h: Hash, evs: seq<Event>, o: nat)
    requires Exec(h, evs).Some? && o < |Exec(h, evs).value.objs|
    ensures exists j :: 0 <= j < |evs| && evs[j].Bind? && evs[j].token == Exec(h, evs).value.objs[o].sess.token
  {
    var front := evs[..|evs| - 1];
    var s, e := LastStep(h, evs);
    StepFrame(h, s, e);
    if o < |s.objs| {
      SessionsKeepIdentity(h, s, e, o);
      ObjectWasBound(h, front, o);
      var j :| 0 <= j < |front| && front[j].Bind? && front[j].token == s.objs[o].sess.token;
      assert evs[j] == front[j];
    } else {
      assert evs[|evs| - 1].Bind?;
    }
  }

  /** No other token registered in the run has the token's ID. */
  ghost predicate OwnID(h: Hash, evs: seq<Event>, token: string) {
    forall j :: 0 <= j < |evs| && evs[j].Bind? && TokenID(h, evs[j].token) == TokenID(h, token) ==>
                  evs[j].token == token
  }

  lemma OwnObjects(h: Hash, evs: seq<Event>, n: nat, token: string)
    requires n <= |evs| && Exec(h, evs[..n]).Some? && OwnID(h, evs, token)
    ensures var s := Exec(h, evs[..n]).value;
            forall o :: 0 <= o < |s.objs| && s.objs[o].sess.tokenID == TokenID(h, token) ==>
                          s.objs[o].sess.token == token
  {
    var s := Exec(h, evs[..n]).value;
    AlwaysWF(h, evs[..n]);
    forall o | 0 <= o < |s.objs| && s.objs[o].sess.tokenID == TokenID(h, token)
      ensures s.objs[o].sess.token == token
    {
      ObjectWasBound(h, evs[..n], o);
      var j :| 0 <= j < n && evs[..n][j].Bind? && evs[..n][j].token == s.objs[o].sess.token;
      assert evs[j] == evs[..n][j] && ObjectOk(h, s.objs[o]);
    }
  }

  /** So it is in a run in which no session was registered over a live one and no read on an open socket failed, if no
      other token of the run has that ID and the token is not being registered. */
  lemma CleanRunsSilenceable(h: Hash, evs: seq<Event>, token: string)
    requires Exec(h, evs).Some? && NeverLeaks(h, evs) && OwnID(h, evs, token)
    requires NotInstalling(Exec(h, evs).value, token)
    ensures Silenceable(h, Exec(h, evs).value, token)
  {
    assert evs[..|evs|] == evs;
    SocketsConserved(h, evs);
    OwnObjects(h, evs, |evs|, token);
  }

  /** `InvalidateSession` and after: every later packet for the token is dropped until a token with its ID is registered
      again. */
  lemma AfterInvalidation(h: Hash, evs: seq<Event>, n: nat, i: nat, token: string)
    requires n < i < |evs| && Exec(h, evs).Some? && evs[n] == Unlink(token)
    requires Exec(h, evs[..n]).Some? ==> Silenceable(h, Exec(h, evs[..n]).value, token)
    requires forall j :: n < j < |evs| && evs[j].Bind? ==> TokenID(h, evs[j].token) != TokenID(h, token)
    ensures Exec(h, evs[..i]).Some? && Dropped(Exec(h, evs[..i]).value, evs[i], TokenID(h, token), h)
  {
    SilencedAfter(h, evs, n, token);
    InvalidatedStaysSilent(h, evs, n + 1, i, TokenID(h, token));
  }

  lemma SilencedAfter(h: Hash, evs: seq<Event>, n: nat, token: string)
    requires n < |evs| && Exec(h, evs).Some? && evs[n] == Unlink(token)
    requires Exec(h, evs[..n]).Some? ==> Silenceable(h, Exec(h, evs[..n]).value, token)
    ensures Exec(h, evs[..n + 1]).Some? && Silenced(Exec(h, evs[..n + 1]).value, TokenID(h, token))
  {
    PrefixRuns(h, evs, n);
    assert evs[..n + 1] == evs[..n] + [Unlink(token)];
    UnlinkFrom(h, evs[..n], token);
  }

  /** `UnlinkSilencesIff` at the end of a run. */
  lemma UnlinkFrom(h: Hash, evs: seq<Event>, token: string)
    requires Exec(h, evs).Some?
    ensures var after := evs + [Unlink(token)];
            && Exec(h, after).Some?
            && (Silenced(Exec(h, after).value, TokenID(h, token)) <==> Silenceable(h, Exec(h, evs).value, token))
  {
    var s := Exec(h, evs).value;
    AlwaysWF(h, evs);
    AlwaysPlaced(h, evs);
    OneMore(h, evs, s, Unlink(token));
    UnlinkSilencesIff(h, s, token);
  }

  predicate NotInstalling(s: State, token: string) {
    forall o :: o in s.installing && o < |s.objs| ==> s.objs[o].sess.token != token
  }

  /** A packet for the ID that is looked up by this step goes nowhere, and none is read on a closed raw socket. */
  ghost predicate Dropped(s: State, e: Event, id: Bytes, h: Hash) {
    && Enabled(s, e)
    && (e.Receive? && Parse(e.datagram).Frame? && Parse(e.datagram).id == id ==> Next(h, s, e) == s)
    && (e.Relock? && Parse(s.main.datagram).id == id ==> Next(h, s, e) == s.(main := Listening))
    && (e.RawReceive? && s.objs[e.o].sess.tokenID == id ==> e.o in s.closing)
  }

  // ---- Only a silenced ID stays silent ----

  /** A continuation of the run that registers no token with the ID. */
  ghost predicate Continues(h: Hash, evs: seq<Event>, more: seq<Event>, id: Bytes) {
    && Exec(h, evs + more).Some?
    && forall j :: 0 <= j < |more| && more[j].Bind? ==> TokenID(h, more[j].token) != id
  }

  /** Every packet for the ID in the continuation is dropped. */
  ghost predicate AllDropped(h: Hash, evs: seq<Event>, more: seq<Event>, id: Bytes) {
    forall i :: |evs| <= i < |evs + more| ==>
                  Exec(h, (evs + more)[..i]).Some? && Dropped(Exec(h, (evs + more)[..i]).value, (evs + more)[i], id, h)
  }

  /** The raw loop of an open socket is running. */
  ghost predicate OpenReads(s: State) {
    forall o :: 0 <= o < |s.objs| && SocketOpen(s, o) ==> !s.objs[o].raw.NotStarted? && !s.objs[o].raw.Stopped?
  }

  /** A raw loop that runs stops only when a read of it fails. */
  lemma KeepsReading(h: Hash, s: State, e: Event, o: nat)
    requires Enabled(s, e) && o < |s.objs| && !s.objs[o].raw.NotStarted? && !s.objs[o].raw.Stopped? && e != RawFail(o)
    ensures o < |Next(h, s, e).objs|
    ensures !Next(h, s, e).objs[o].raw.NotStarted? && !Next(h, s, e).objs[o].raw.Stopped?
  {
    StepFrame(h, s, e);
  }

  lemma OpenReadsStep(h: Hash, s: State, e: Event)
    requires WF(h, s) && Enabled(s, e) && OpenReads(s)
    ensures OpenReads(Next(h, s, e))
  {
    var r := Next(h, s, e);
    forall o | 0 <= o < |r.objs| && SocketOpen(r, o) ensures !r.objs[o].raw.NotStarted? && !r.objs[o].raw.Stopped? {
      if o < |s.objs| {
        WhereNow(h, s, e, o);
        KeepsReading(h, s, e, o);
      } else {
        NewReads(h, s, e);
      }
    }
  }

  lemma NewReads(h: Hash, s: State, e: Event)
    requires Enabled(s, e) && |Next(h, s, e).objs| > |s.objs|
    ensures var r := Next(h, s, e);
            && |r.objs| == |s.objs| + 1
            && (r.objs[|s.objs|].sess.rawConn.Some? ==> r.objs[|s.objs|].raw.Reading?)
  {
    StepFrame(h, s, e);
  }

  lemma {:induction false} AlwaysOpenReads(h: Hash, evs: seq<Event>)
    requires Exec(h, evs).Some?
    ensures OpenReads(Exec(h, evs).value)
  {
    if evs != [] {
      var s, e := LastStep(h, evs);
      AlwaysOpenReads(h, evs[..|evs| - 1]);
      AlwaysWF(h, evs[..|evs| - 1]);
      OpenReadsStep(h, s, e);
    }
  }

  /** One more event of a continuation that is not dropped. */
  lemma NotDropped(h: Hash, evs: seq<Event>, more: seq<Event>, s: State, e: Event, id: Bytes)
    requires Continues(h, evs, more, id) && Exec(h, evs + more) == Some(s)
    requires Enabled(s, e) && !e.Bind? && !Dropped(s, e, id, h)
    ensures Continues(h, evs, more + [e], id) && !AllDropped(h, evs, more + [e], id)
  {
    OneMore(h, evs + more, s, e);
    var all := evs + (more + [e]);
    assert all == evs + more + [e];
    assert all[..|evs + more|] == evs + more && all[|evs + more|] == e;
  }

  lemma Longer(h: Hash, evs: seq<Event>, more: seq<Event>, s: State, e: Event, id: Bytes)
    requires Continues(h, evs, more, id) && Exec(h, evs + more) == Some(s) && Enabled(s, e) && !e.Bind?
    ensures Continues(h, evs, more + [e], id) && Exec(h, evs + (more + [e])) == Some(Next(h, s, e))
  {
    OneMore(h, evs + more, s, e);
    assert evs + (more + [e]) == evs + more + [e];
  }

  /** A session of the map stays there while the main loop gets back to reading. */
  lemma BackToReading(h: Hash, evs: seq<Event>, more: seq<Event>, id: Bytes, o: nat) returns (r: seq<Event>)
    requires Continues(h, evs, more, id) && InTable(Exec(h, evs + more).value, o)
    requires Exec(h, evs + more).value.objs[o].sess.tokenID == id
    ensures Continues(h, evs, r, id) && InTable(Exec(h, evs + r).value, o)
    ensures Exec(h, evs + r).value.main.Listening? && Exec(h, evs + r).value.objs[o].sess.tokenID == id
    decreases if Exec(h, evs + more).value.main.Between? then 2
      else if Exec(h, evs + more).value.main.Forwarding? then 1 else 0
  {
    var s := Exec(h, evs + more).value;
    r := more;
    if !s.main.Listening? {
      AlwaysWF(h, evs + more);
      TwoLocksRefineOne(h, evs + more);
      var e := if s.main.Between? then Relock(SomeFound(s, Parse(s.main.datagram).id)) else Forward;
      Longer(h, evs, more, s, e, id);
      WhereNow(h, s, e, o);
      SessionsKeepIdentity(h, s, e, o);
      r := BackToReading(h, evs, more + [e], id, o);
    }
  }

  /** Some result of a lookup. */
  ghost function SomeFound(s: State, id: Bytes): (found: Option<nat>)
    ensures Finds(s, id, found)
  {
    if o: nat :| InTable(s, o) && s.objs[o].sess.tokenID == id then Some(o) else None
  }

  /** A packet for a session of the map is not dropped. */
  lemma MapListens(h: Hash, evs: seq<Event>, more: seq<Event>, id: Bytes, o: nat) returns (r: seq<Event>)
    requires Continues(h, evs, more, id) && InTable(Exec(h, evs + more).value, o)
    requires Exec(h, evs + more).value.objs[o].sess.tokenID == id
    ensures Continues(h, evs, r, id) && !AllDropped(h, evs, r, id)
  {
    var r1 := BackToReading(h, evs, more, id, o);
    AlwaysWF(h, evs + r1);
    var s := Exec(h, evs + r1).value;
    var wait := Wait(if s.now == s.objs[o].sess.lastActive then 1 else 0);
    Longer(h, evs, r1, s, wait, id);
    var s1 := Next(h, s, wait);
    assert ObjectOk(h, s.objs[o]);
    ParseWrap(id, []);
    var e := Receive("x", Wrap(id, []), Some(o));
    assert Next(h, s1, e) != s1;
    NotDropped(h, evs, r1 + [wait], s1, e, id);
    r := r1 + [wait] + [e];
  }

  /** A raw socket that is open and about to stay so takes packets. */
  lemma RawListens(h: Hash, evs: seq<Event>, more: seq<Event>, id: Bytes, o: nat) returns (r: seq<Event>)
    requires Continues(h, evs, more, id) && o < |Exec(h, evs + more).value.objs|
    requires var s := Exec(h, evs + more).value; SocketOpen(s, o) && o !in s.closing && s.objs[o].sess.tokenID == id
    ensures Continues(h, evs, r, id) && !AllDropped(h, evs, r, id)
    decreases var raw := Exec(h, evs + more).value.objs[o].raw;
              if raw.Got? then 3 else if raw.Recorded? then 2 else if raw.Sending? then 1 else 0
  {
    var s := Exec(h, evs + more).value;
    AlwaysWF(h, evs + more);
    AlwaysOpenReads(h, evs + more);
    var raw := s.objs[o].raw;
    if raw.Reading? {
      NotDropped(h, evs, more, s, RawReceive(o, "x", []), id);
      r := more + [RawReceive(o, "x", [])];
    } else {
      var e := if raw.Got? then RawRecord(o) else if raw.Recorded? then RawPeer(o) else RawSend(o);
      Longer(h, evs, more, s, e, id);
      WhereNow(h, s, e, o);
      SessionsKeepIdentity(h, s, e, o);
      r := RawListens(h, evs, more + [e], id, o);
    }
  }

  lemma NotSilencedListens(h: Hash, evs: seq<Event>, id: Bytes) returns (r: seq<Event>)
    requires Exec(h, evs).Some? && !Silenced(Exec(h, evs).value, id)
    ensures Continues(h, evs, r, id) && !AllDropped(h, evs, r, id)
  {
    var s := Exec(h, evs).value;
    assert evs + [] == evs;
    AlwaysWF(h, evs);
    var o :| 0 <= o < |s.objs| && s.objs[o].sess.tokenID == id
             && !(!InTable(s, o) && o !in s.installing && (SocketOpen(s, o) ==> o in s.closing));
    if InTable(s, o) {
      r := MapListens(h, evs, [], id, o);
    } else if o in s.installing {
      var e := Install(o);
      Longer(h, evs, [], s, e, id);
      assert [] + [e] == [e];
      WhereNow(h, s, e, o);
      SessionsKeepIdentity(h, s, e, o);
      r := MapListens(h, evs, [e], id, o);
    } else {
      r := RawListens(h, evs, [], id, o);
    }
  }

  /** At any moment of any run: every packet for the ID is dropped in every continuation that registers no token with
      it, exactly when the ID is silenced. */
  lemma SilentForeverIff(h: Hash, evs: seq<Event>, id: Bytes)
    requires Exec(h, evs).Some?
    ensures (forall more :: Continues(h, evs, more, id) ==> AllDropped(h, evs, more, id)) <==>
            Silenced(Exec(h, evs).value, id)
  {
    if Silenced(Exec(h, evs).value, id) {
      forall more | Continues(h, evs, more, id) ensures AllDropped(h, evs, more, id) {
        var all := evs + more;
        assert all[..|evs|] == evs;
        assert forall j :: |evs| <= j < |all| ==> all[j] == more[j - |evs|];
        forall i | |evs| <= i < |all| ensures Exec(h, all[..i]).Some?
            && Dropped(Exec(h, all[..i]).value, all[i], id, h) {
          InvalidatedStaysSilent(h, all, |evs|, i, id);
        }
      }
    } else {
      var more := NotSilencedListens(h, evs, id);
    }
  }

  /** So an invalidation silences its token for good exactly when the token is silenceable. */
  lemma InvalidationSilencesIff(h: Hash, evs: seq<Event>, token: string)
    requires Exec(h, evs).Some?
    ensures var after := evs + [Unlink(token)];
            (forall more :: Continues(h, after, more, TokenID(h, token)) ==>
                              AllDropped(h, after, more, TokenID(h, token)))
            <==> Silenceable(h, Exec(h, evs).value, token)
  {
    UnlinkFrom(h, evs, token);
    SilentForeverIff(h, evs + [Unlink(token)], TokenID(h, token));
  }

  /** What goes wrong otherwise: after a live token was registered again, its invalidation leaves the old raw socket
      open, and a packet read there is written to the provider with the header of the invalidated session. */
  lemma OrphanStillForwards(h: Hash, s: State, o: nat, src: Addr, packet: Bytes)
    requires WF(h, s) && Orphan(s, o) && s.objs[o].raw.Reading? && s.objs[o].sess.peerA.Some?
    ensures var u := Next(h, s, Unlink(s.objs[o].sess.token));
            && RawTurnCan(h, u, o, src, packet)
            && var r := RawTurned(u, o, src, packet);
            && Enabled(r, RawSend(o))
            && Next(h, r, RawSend(o)).sent == s.sent + [Write(o, FromRaw, src, ViaMain(s.objs[o].sess.peerA.value),
                                                             Header(s.objs[o].sess.tokenID) + packet)]
  {
    var e := Unlink(s.objs[o].sess.token);
    WhereNow(h, s, e, o);
    StepFrame(h, s, e);
    RawTurn(h, Next(h, s, e), o, src, packet);
  }
}
