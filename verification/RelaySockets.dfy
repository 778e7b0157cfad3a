/** The raw sockets of the relay over whole runs: none is lost, none leaks, and an invalidated session
    goes silent. */
module RelaySockets {
  import opened Text
  import opened Frames
  import opened RelayMachine

  /** A session object is in the map, being registered or being closed: one of them at most. */
  ghost predicate Placed(s: State) {
    forall o :: 0 <= o < |s.objs| ==>
                  && !(InTable(s, o) && o in s.installing)
                  && !(InTable(s, o) && o in s.closing)
                  && !(o in s.installing && o in s.closing)
  }

  predicate Held(s: State, o: nat) {
    InTable(s, o) || o in s.installing || o in s.closing
  }

  /** The open raw sockets are exactly those of the sessions in the map, of registrations about to enter
      it and of removals about to close theirs. */
  ghost predicate Conserved(s: State) {
    forall o :: 0 <= o < |s.objs| ==> (SocketOpen(s, o) <==> s.objs[o].sess.rawConn.Some? && Held(s, o))
  }

  /** A registration enters the map over a live session that has a raw socket, or a read on an open raw
      socket fails. */
  predicate Leaks(s: State, e: Event) {
    match e
    case Install(o) =>
      o < |s.objs| &&
      var t := s.objs[o].sess.token;
      t in s.table && s.table[t] < |s.objs| && s.objs[s.table[t]].sess.rawConn.Some?
    case RawFail(o) => o < |s.objs| && SocketOpen(s, o)
    case _ => false
  }

  lemma SessionsKeepIdentity(h: Hash, s: State, e: Event, o: nat)
    requires Enabled(s, e) && o < |s.objs|
    ensures o < |Next(h, s, e).objs|
    ensures var a, b := s.objs[o].sess, Next(h, s, e).objs[o].sess;
            (a.token, a.tokenID, a.rawConn) == (b.token, b.tokenID, b.rawConn)
  {
    StepFrame(h, s, e);
  }

  /** When a step leaves an existing object in the map. */
  lemma InMapNow(h: Hash, s: State, e: Event, o: nat)
    requires WF(h, s) && Enabled(s, e) && o < |s.objs|
    ensures InTable(Next(h, s, e), o) <==>
              if e == Install(o) then true
              else InTable(s, o) && e != Unlink(s.objs[o].sess.token) && !(e.Sweep? && Idle(s, o))
                   && !(e.Install? && s.objs[e.o].sess.token == s.objs[o].sess.token)
  {
    SessionsKeepIdentity(h, s, e, o);
  }

  /** How a step moves an existing object between the map, registration, closing and its socket. */
  lemma WhereNow(h: Hash, s: State, e: Event, o: nat)
    requires WF(h, s) && Enabled(s, e) && o < |s.objs|
    ensures var r, x := Next(h, s, e), s.objs[o].sess;
            && o < |r.objs|
            && (InTable(r, o) <==>
                  if e == Install(o) then true
                  else InTable(s, o) && e != Unlink(x.token) && !(e.Sweep? && Idle(s, o))
                       && !(e.Install? && s.objs[e.o].sess.token == x.token))
            && (o in r.installing <==> o in s.installing && e != Install(o))
            && (o in r.closing <==>
                  || (o in s.closing && e != CloseRaw(o))
                  || (InTable(s, o) && e == Unlink(x.token) && x.rawConn.Some?))
            && (SocketOpen(r, o) <==>
                  SocketOpen(s, o) && e != CloseRaw(o) && e != RawFail(o) && !(e.Sweep? && InTable(s, o) && Idle(s, o)))
  {
    InMapNow(h, s, e, o);
    SocketNow(h, s, e, o);
  }

  lemma SocketNow(h: Hash, s: State, e: Event, o: nat)
    requires WF(h, s) && Enabled(s, e) && o < |s.objs|
    ensures o < |Next(h, s, e).objs|
    ensures SocketOpen(Next(h, s, e), o) <==>
              SocketOpen(s, o) && e != CloseRaw(o) && e != RawFail(o) && !(e.Sweep? && InTable(s, o) && Idle(s, o))
  {
    SessionsKeepIdentity(h, s, e, o);
  }

  lemma NewObject(h: Hash, s: State, e: Event)
    requires WF(h, s) && Enabled(s, e) && e.Bind?
    ensures var r, o := Next(h, s, e), |s.objs|;
            && |r.objs| == |s.objs| + 1
            && !InTable(r, o) && o in r.installing && o !in r.closing
            && r.objs[o].sess.token == e.token && r.objs[o].sess.tokenID == TokenID(h, e.token)
            && (SocketOpen(r, o) <==> r.objs[o].sess.rawConn.Some?)
            && (r.objs[o].raw.Reading? <==> r.objs[o].sess.rawConn.Some?)
            && r.objs[o].sess.rawConn
               == (if e.refused || RawPortForToken(h, e.token) in s.bound then None
                   else Some(RawPortForToken(h, e.token)))
            && r.objs[o].sess.sessionID == e.sessionID
            && r.objs[o].sess.created == s.now && r.objs[o].sess.lastActive == s.now
            && r.objs[o].sess.peerA.None? && r.objs[o].sess.peerB.None? && r.objs[o].sess.renterAddr.None?
  {
  }

  lemma PlacedStep(h: Hash, s: State, e: Event)
    requires WF(h, s) && Enabled(s, e) && Placed(s)
    ensures Placed(Next(h, s, e))
  {
    StepFrame(h, s, e);
    var r := Next(h, s, e);
    forall o | 0 <= o < |r.objs|
      ensures !(InTable(r, o) && o in r.installing) && !(InTable(r, o) && o in r.closing)
      ensures !(o in r.installing && o in r.closing)
    {
      if o < |s.objs| { WhereNow(h, s, e, o); } else { NewObject(h, s, e); }
    }
  }

  /** A step keeps the raw sockets conserved exactly when it is not one of the two leaking ones. */
  lemma ConservedStepIff(h: Hash, s: State, e: Event)
    requires WF(h, s) && Enabled(s, e) && Placed(s) && Conserved(s)
    ensures Conserved(Next(h, s, e)) <==> !Leaks(s, e)
  {
    StepFrame(h, s, e);
    var r := Next(h, s, e);
    if Leaks(s, e) {
      var lost := if e.Install? then s.table[s.objs[e.o].sess.token] else e.o;
      WhereNow(h, s, e, lost);
      assert !(SocketOpen(r, lost) <==> r.objs[lost].sess.rawConn.Some? && Held(r, lost)) by {
        SessionsKeepIdentity(h, s, e, lost);
      }
    } else {
      forall o | 0 <= o < |r.objs|
        ensures SocketOpen(r, o) <==> r.objs[o].sess.rawConn.Some? && Held(r, o)
      {
        if o < |s.objs| {
          WhereNow(h, s, e, o);
          SessionsKeepIdentity(h, s, e, o);
        } else {
          NewObject(h, s, e);
        }
      }
    }
  }

  /** No step of the run leaks. */
  ghost predicate NeverLeaks(h: Hash, evs: seq<Event>) {
    forall i :: 0 <= i < |evs| ==> Exec(h, evs[..i]).Some? ==> !Leaks(Exec(h, evs[..i]).value, evs[i])
  }

  lemma {:induction false} AlwaysPlaced(h: Hash, evs: seq<Event>)
    requires Exec(h, evs).Some?
    ensures WF(h, Exec(h, evs).value) && Placed(Exec(h, evs).value)
  {
    AlwaysWF(h, evs);
    if evs != [] {
      var s, e := LastStep(h, evs);
      AlwaysWF(h, evs[..|evs| - 1]);
      AlwaysPlaced(h, evs[..|evs| - 1]);
      PlacedStep(h, s, e);
    }
  }

  /** Raw sockets are conserved over every run without a leaking step; once no registration or removal
      is under way the open sockets are those of the map, on distinct ports given by their tokens. */
  lemma {:induction false} SocketsConserved(h: Hash, evs: seq<Event>)
    requires Exec(h, evs).Some? && NeverLeaks(h, evs)
    ensures var s := Exec(h, evs).value;
            && WF(h, s) && Placed(s) && Conserved(s)
            && (s.installing == {} && s.closing == {} ==>
                  forall o :: 0 <= o < |s.objs| ==>
                                (SocketOpen(s, o) <==> s.objs[o].sess.rawConn.Some? && InTable(s, o)))
            && (forall p :: p in s.bound ==> RAW_BASE_PORT <= p < RAW_BASE_PORT + RAW_PORT_RANGE)
            && (forall p :: p in s.bound ==> p == RawPortForToken(h, s.objs[s.bound[p]].sess.token))
  {
    AlwaysPlaced(h, evs);
    if evs != [] {
      var front := evs[..|evs| - 1];
      var s, e := LastStep(h, evs);
      forall i | 0 <= i < |front| && Exec(h, front[..i]).Some?
        ensures !Leaks(Exec(h, front[..i]).value, front[i])
      {
        assert front[..i] == evs[..i];
      }
      SocketsConserved(h, front);
      ConservedStepIff(h, s, e);
    }
  }

  // ---- Registering a live token ----

  /** An open raw socket no session of the map, no registration and no removal knows about. */
  predicate Orphan(s: State, o: nat) {
    o < |s.objs| && SocketOpen(s, o) && !Held(s, o)
  }

  /** Registering a token whose session is live and has a raw socket: the new session gets no raw port,
      and the old socket is an orphan. */
  lemma ReRegistrationOrphans(h: Hash, s: State, o: nat, sessionID: string, refused: bool)
    requires WF(h, s) && Placed(s) && InTable(s, o) && SocketOpen(s, o)
    ensures var t := s.objs[o].sess.token;
            var bound := Next(h, s, Bind(t, sessionID, refused));
            && Enabled(bound, Install(|s.objs|))
            && var r := Next(h, bound, Install(|s.objs|));
            && InTable(r, |s.objs|) && r.objs[|s.objs|].sess.rawConn.None?
            && Orphan(r, o)
  {
    var e := Bind(s.objs[o].sess.token, sessionID, refused);
    StepWF(h, s, e);
    NewObject(h, s, e);
    WhereNow(h, s, e, o);
    SessionsKeepIdentity(h, s, e, o);
    WhereNow(h, Next(h, s, e), Install(|s.objs|), o);
    WhereNow(h, Next(h, s, e), Install(|s.objs|), |s.objs|);
    SessionsKeepIdentity(h, Next(h, s, e), Install(|s.objs|), |s.objs|);
  }

  /** No later invalidation, removal or sweep ever closes an orphan's socket. */
  lemma {:induction false} OrphanForever(h: Hash, evs: seq<Event>, n: nat, o: nat)
    requires n <= |evs| && Exec(h, evs).Some? && Exec(h, evs[..n]).Some?
    requires Orphan(Exec(h, evs[..n]).value, o)
    requires forall i :: n <= i < |evs| ==> evs[i] != RawFail(o)
    ensures Orphan(Exec(h, evs).value, o)
  {
    if n == |evs| {
      assert evs[..n] == evs;
    } else {
      var front := evs[..|evs| - 1];
      var s, e := LastStep(h, evs);
      assert front[..n] == evs[..n];
      OrphanForever(h, front, n, o);
      AlwaysPlaced(h, front);
      WhereNow(h, s, e, o);
    }
  }
}
