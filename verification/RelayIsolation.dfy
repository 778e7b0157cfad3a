/** Who can receive a session's packets: only addresses that have spoken to that session. */
module RelayIsolation {
  import opened Text
  import opened Frames
  import opened Routing
  import opened RelayMachine

  /** The event is a packet from `a` that names the session object `o` with token ID `id`: a relay packet
      with that ID on the main socket, or any packet on its raw port. */
  predicate Speaks(e: Event, o: nat, id: Bytes, a: Addr) {
    || (e.Receive? && e.src == a && Parse(e.datagram).Frame? && Parse(e.datagram).id == id)
    || (e.RawReceive? && e.o == o && e.src == a)
  }

  /** Event `i` happens after the registration that created object `o`, and in it `a` speaks to the object. */
  ghost predicate SpeaksAt(h: Hash, evs: seq<Event>, i: nat, o: nat, id: Bytes, a: Addr)
    requires i < |evs|
  {
    Exec(h, evs[..i]).Some? && o < |Exec(h, evs[..i]).value.objs| && Speaks(evs[i], o, id, a)
  }

  /** `a` has spoken to object `o` since the registration that created it. */
  ghost predicate Heard(h: Hash, evs: seq<Event>, o: nat, id: Bytes, a: Addr) {
    exists i :: 0 <= i < |evs| && SpeaksAt(h, evs, i, o, id, a)
  }

  /** `a` has sent a packet to the raw port of object `o`. */
  predicate SentRaw(evs: seq<Event>, o: nat, a: Addr) {
    exists i :: 0 <= i < |evs| && evs[i].RawReceive? && evs[i].o == o && evs[i].src == a
  }

  /** The addresses an object may send to, now or after the raw packet in hand. */
  predicate Knows(x: Object, a: Addr) {
    || x.sess.peerA == Some(a) || x.sess.peerB == Some(a) || x.sess.renterAddr == Some(a)
    || (x.raw.Got? && x.raw.src == a)
    || (x.raw.Sending? && x.raw.write.route == ViaMain(a))
  }

  ghost predicate SlotsHeard(h: Hash, evs: seq<Event>) {
    Exec(h, evs).Some? ==>
      var s := Exec(h, evs).value;
      forall o, a :: 0 <= o < |s.objs| && Knows(s.objs[o], a) ==> Heard(h, evs, o, s.objs[o].sess.tokenID, a)
  }

  /** Event `j` makes a session object remember the sender of a packet that was read before the object
      was registered, and that has sent nothing to the object's raw port. */
  ghost predicate AdoptsStale(h: Hash, evs: seq<Event>, j: nat)
    requires j < |evs|
  {
    && Exec(h, evs[..j]).Some? && Enabled(Exec(h, evs[..j]).value, evs[j])
    && evs[j].Relock? && evs[j].found.Some?
    && var s, o := Exec(h, evs[..j]).value, evs[j].found.value;
    && s.main.seen <= o
    && NeedsWrite(s.objs[o].sess, s.main.src)
    && !SentRaw(evs[..j], o, s.main.src)
  }

  // ---- Speaking is remembered ----

  lemma HeardLater(h: Hash, evs: seq<Event>, o: nat, id: Bytes, a: Addr)
    requires evs != [] && Heard(h, evs[..|evs| - 1], o, id, a)
    ensures Heard(h, evs, o, id, a)
  {
    var front := evs[..|evs| - 1];
    var i :| 0 <= i < |front| && SpeaksAt(h, front, i, o, id, a);
    assert front[..i] == evs[..i] && front[i] == evs[i];
    assert SpeaksAt(h, evs, i, o, id, a);
  }

  lemma HeardNow(h: Hash, evs: seq<Event>, o: nat, id: Bytes, a: Addr)
    requires evs != [] && Exec(h, evs).Some?
    requires o < |Exec(h, evs[..|evs| - 1]).value.objs| && Speaks(evs[|evs| - 1], o, id, a)
    ensures Heard(h, evs, o, id, a)
  {
    var s, e := LastStep(h, evs);
    assert SpeaksAt(h, evs, |evs| - 1, o, id, a);
  }

  /** What was heard so far but not now was heard before. */
  lemma HeardBefore(h: Hash, evs: seq<Event>, o: nat, id: Bytes, a: Addr)
    requires evs != [] && Heard(h, evs, o, id, a) && !Speaks(evs[|evs| - 1], o, id, a)
    ensures Heard(h, evs[..|evs| - 1], o, id, a)
  {
    var front := evs[..|evs| - 1];
    var i :| 0 <= i < |evs| && SpeaksAt(h, evs, i, o, id, a);
    assert front[..i] == evs[..i] && front[i] == evs[i];
    assert SpeaksAt(h, front, i, o, id, a);
  }

  /** A packet between the locks has been received, and at that time `seen` objects existed. */
  ghost predicate GapHeard(h: Hash, evs: seq<Event>, s: State) {
    s.main.Between? ==>
      exists i :: 0 <= i < |evs| && Exec(h, evs[..i]).Some? && |Exec(h, evs[..i]).value.objs| == s.main.seen
                  && evs[i].Receive? && evs[i].src == s.main.src && evs[i].datagram == s.main.datagram
  }

  lemma {:induction false} GapAlwaysHeard(h: Hash, evs: seq<Event>)
    requires Exec(h, evs).Some?
    ensures GapHeard(h, evs, Exec(h, evs).value)
  {
    if evs != [] {
      var front := evs[..|evs| - 1];
      var s, e := LastStep(h, evs);
      GapAlwaysHeard(h, front);
      var r := Next(h, s, e);
      if r.main.Between? {
        if e.Receive? {
          assert Exec(h, evs[..|evs| - 1]).Some? && evs[|evs| - 1].Receive?;
        } else {
          GapUnchanged(h, s, e);
          var i :| 0 <= i < |front| && Exec(h, front[..i]).Some? && |Exec(h, front[..i]).value.objs| == s.main.seen
                   && front[i].Receive? && front[i].src == s.main.src && front[i].datagram == s.main.datagram;
          assert front[..i] == evs[..i] && front[i] == evs[i];
        }
      }
    }
  }

  lemma GapUnchanged(h: Hash, s: State, e: Event)
    requires Enabled(s, e) && !e.Receive? && Next(h, s, e).main.Between?
    ensures Next(h, s, e).main == s.main
  {
  }

  /** The sender of a packet between the locks has spoken to every object that existed when it was read. */
  lemma GapSpoke(h: Hash, evs: seq<Event>, o: nat)
    requires Exec(h, evs).Some? && Exec(h, evs).value.main.Between?
    requires o < Exec(h, evs).value.main.seen && Parse(Exec(h, evs).value.main.datagram).Frame?
    ensures Heard(h, evs, o, Parse(Exec(h, evs).value.main.datagram).id, Exec(h, evs).value.main.src)
  {
    GapAlwaysHeard(h, evs);
    var s := Exec(h, evs).value;
    var i :| 0 <= i < |evs| && Exec(h, evs[..i]).Some? && |Exec(h, evs[..i]).value.objs| == s.main.seen
             && evs[i].Receive? && evs[i].src == s.main.src && evs[i].datagram == s.main.datagram;
    assert SpeaksAt(h, evs, i, o, Parse(s.main.datagram).id, s.main.src);
  }

  lemma {:induction false} ObjectsStay(h: Hash, evs: seq<Event>, i: nat)
    requires Exec(h, evs).Some? && i <= |evs|
    ensures Exec(h, evs[..i]).Some? && |Exec(h, evs[..i]).value.objs| <= |Exec(h, evs).value.objs|
  {
    if i == |evs| {
      assert evs[..i] == evs;
    } else {
      var s, e := LastStep(h, evs);
      ObjectsStay(h, evs[..|evs| - 1], i);
      assert evs[..|evs| - 1][..i] == evs[..i];
      StepFrame(h, s, e);
    }
  }

  /** While a packet is between the locks the main loop reads no other: every packet it has read was read when
      there were at most `seen` objects. */
  lemma {:induction false} GapReadsNothing(h: Hash, evs: seq<Event>, i: nat)
    requires Exec(h, evs).Some? && Exec(h, evs).value.main.Between?
    requires i < |evs| && evs[i].Receive?
    ensures Exec(h, evs[..i]).Some? && |Exec(h, evs[..i]).value.objs| <= Exec(h, evs).value.main.seen
  {
    var front := evs[..|evs| - 1];
    var s, e := LastStep(h, evs);
    if e.Receive? {
      ObjectsStay(h, front, i);
      assert front[..i] == evs[..i];
    } else {
      GapUnchanged(h, s, e);
      GapReadsNothing(h, front, i);
      assert front[..i] == evs[..i];
    }
  }

  /** To an object registered while a packet is between the locks, only raw packets speak. */
  lemma OnlyRawSpeaks(h: Hash, evs: seq<Event>, o: nat, id: Bytes, a: Addr)
    requires Exec(h, evs).Some? && Exec(h, evs).value.main.Between? && Exec(h, evs).value.main.seen <= o
    requires Heard(h, evs, o, id, a)
    ensures SentRaw(evs, o, a)
  {
    var i :| 0 <= i < |evs| && SpeaksAt(h, evs, i, o, id, a);
    if evs[i].Receive? {
      GapReadsNothing(h, evs, i);
    }
  }

  lemma RawSpeaks(h: Hash, evs: seq<Event>, o: nat, id: Bytes, a: Addr)
    requires Exec(h, evs).Some? && SentRaw(evs, o, a)
    ensures Heard(h, evs, o, id, a)
  {
    var i :| 0 <= i < |evs| && evs[i].RawReceive? && evs[i].o == o && evs[i].src == a;
    PrefixRuns(h, evs, i + 1);
    var s, e := LastStep(h, evs[..i + 1]);
    assert evs[..i + 1][..i] == evs[..i];
    assert SpeaksAt(h, evs, i, o, id, a);
  }

  // ---- What a step teaches an object ----

  /** An address an object newly knows is the sender of the packet in hand. */
  lemma LearnsOnlySender(h: Hash, s: State, e: Event, o: nat, a: Addr)
    requires Enabled(s, e) && o < |s.objs|
    ensures o < |Next(h, s, e).objs| && Next(h, s, e).objs[o].sess.tokenID == s.objs[o].sess.tokenID
    ensures Knows(Next(h, s, e).objs[o], a) && !Knows(s.objs[o], a) ==>
              || (e.RawReceive? && e.o == o && e.src == a)
              || (e == Relock(Some(o)) && s.main.src == a && NeedsWrite(s.objs[o].sess, a)
                  && Parse(s.main.datagram).id == s.objs[o].sess.tokenID)
  {
    StepFrame(h, s, e);
  }

  lemma NewKnowsNothing(h: Hash, s: State, e: Event, o: nat, a: Addr)
    requires Enabled(s, e) && |s.objs| <= o < |Next(h, s, e).objs|
    ensures !Knows(Next(h, s, e).objs[o], a)
  {
    StepFrame(h, s, e);
  }

  /** Without a stale adoption, one more event keeps every known address heard. */
  lemma SlotsHeardStep(h: Hash, evs: seq<Event>)
    requires evs != [] && Exec(h, evs).Some?
    requires SlotsHeard(h, evs[..|evs| - 1]) && !AdoptsStale(h, evs, |evs| - 1)
    ensures SlotsHeard(h, evs)
  {
    var front := evs[..|evs| - 1];
    var s, e := LastStep(h, evs);
    var r := Next(h, s, e);
    forall o, a | 0 <= o < |r.objs| && Knows(r.objs[o], a)
      ensures Heard(h, evs, o, r.objs[o].sess.tokenID, a)
    {
      if o >= |s.objs| {
        NewKnowsNothing(h, s, e, o, a);
      } else {
        LearnsOnlySender(h, s, e, o, a);
        if Knows(s.objs[o], a) {
          HeardLater(h, evs, o, s.objs[o].sess.tokenID, a);
        } else if e.RawReceive? {
          HeardNow(h, evs, o, s.objs[o].sess.tokenID, a);
        } else {
          if o < s.main.seen {
            GapSpoke(h, front, o);
          } else {
            RawSpeaks(h, front, o, s.objs[o].sess.tokenID, a);
          }
          HeardLater(h, evs, o, s.objs[o].sess.tokenID, a);
        }
      }
    }
  }

  /** A stale adoption leaves an address known and not heard. */
  lemma StaleBreaks(h: Hash, evs: seq<Event>)
    requires evs != [] && Exec(h, evs).Some? && AdoptsStale(h, evs, |evs| - 1)
    ensures !SlotsHeard(h, evs)
  {
    var front := evs[..|evs| - 1];
    var s, e := LastStep(h, evs);
    var r, o, a := Next(h, s, e), e.found.value, s.main.src;
    assert Knows(r.objs[o], a) && r.objs[o].sess.tokenID == s.objs[o].sess.tokenID;
    if Heard(h, evs, o, s.objs[o].sess.tokenID, a) {
      HeardBefore(h, evs, o, s.objs[o].sess.tokenID, a);
      OnlyRawSpeaks(h, front, o, s.objs[o].sess.tokenID, a);
    }
  }

  // ---- Writes ----

  ghost predicate WriteHeard(h: Hash, evs: seq<Event>, s: State, w: Write) {
    && w.obj < |s.objs| && !w.route.Drop?
    && Heard(h, evs, w.obj, s.objs[w.obj].sess.tokenID, w.route.dst)
  }

  /** Every datagram written, and the one about to be, goes to an address that has spoken to its session. */
  ghost predicate WritesHeard(h: Hash, evs: seq<Event>) {
    Exec(h, evs).Some? ==>
      var s := Exec(h, evs).value;
      && (forall i :: 0 <= i < |s.sent| ==> WriteHeard(h, evs, s, s.sent[i]))
      && (s.main.Forwarding? ==> WriteHeard(h, evs, s, s.main.write))
      && (forall o :: 0 <= o < |s.objs| && s.objs[o].raw.Sending? ==>
                        s.objs[o].raw.write.obj == o && s.objs[o].raw.write.route.ViaMain?)
  }

  /** A write the main loop is about to do comes from the slots of the session it was routed by. */
  lemma NewWriteIsKnown(h: Hash, s: State, e: Event)
    requires Enabled(s, e) && Next(h, s, e).main.Forwarding? && Next(h, s, e).main != s.main
    ensures var w := Next(h, s, e).main.write;
            w.obj < |Next(h, s, e).objs| && !w.route.Drop? && Knows(Next(h, s, e).objs[w.obj], w.route.dst)
  {
    StepFrame(h, s, e);
    if e.Receive? {
      RouteIsLearned(s.objs[e.found.value].sess, e.src, s.now);
      FastRefinesSlow(s.objs[e.found.value].sess, e.src, s.now);
    } else {
      RouteIsLearned(s.objs[e.found.value].sess, s.main.src, s.now);
    }
  }

  lemma WriteStaysHeard(h: Hash, evs: seq<Event>, s: State, e: Event, w: Write)
    requires evs != [] && Exec(h, evs).Some? && Exec(h, evs[..|evs| - 1]) == Some(s) && e == evs[|evs| - 1]
    requires Enabled(s, e) && WriteHeard(h, evs[..|evs| - 1], s, w)
    ensures WriteHeard(h, evs, Next(h, s, e), w)
  {
    LearnsOnlySender(h, s, e, w.obj, w.route.dst);
    HeardLater(h, evs, w.obj, s.objs[w.obj].sess.tokenID, w.route.dst);
  }

  lemma RawWritesOwn(h: Hash, s: State, e: Event, o: nat)
    requires Enabled(s, e) && o < |Next(h, s, e).objs| && Next(h, s, e).objs[o].raw.Sending?
    requires forall o :: 0 <= o < |s.objs| && s.objs[o].raw.Sending? ==>
                           s.objs[o].raw.write.obj == o && s.objs[o].raw.write.route.ViaMain?
    ensures Next(h, s, e).objs[o].raw.write.obj == o && Next(h, s, e).objs[o].raw.write.route.ViaMain?
  {
    StepFrame(h, s, e);
  }

  lemma SentBy(h: Hash, s: State, e: Event)
    requires Enabled(s, e)
    ensures var r := Next(h, s, e);
            || r.sent == s.sent
            || (e.Forward? && r.sent == s.sent + [s.main.write])
            || (e.RawSend? && r.sent == s.sent + [s.objs[e.o].raw.write])
  {
  }

  lemma WritesHeardStep(h: Hash, evs: seq<Event>)
    requires evs != [] && Exec(h, evs).Some?
    requires WritesHeard(h, evs[..|evs| - 1]) && SlotsHeard(h, evs[..|evs| - 1]) && SlotsHeard(h, evs)
    ensures WritesHeard(h, evs)
  {
    var front := evs[..|evs| - 1];
    var s, e := LastStep(h, evs);
    var r := Next(h, s, e);
    SentBy(h, s, e);
    forall i | 0 <= i < |r.sent|
      ensures WriteHeard(h, evs, r, r.sent[i])
    {
      if i == |s.sent| && e.RawSend? {
        assert Knows(s.objs[e.o], r.sent[i].route.dst);
      }
      WriteStaysHeard(h, evs, s, e, r.sent[i]);
    }
    if r.main.Forwarding? {
      if r.main == s.main {
        WriteStaysHeard(h, evs, s, e, s.main.write);
      } else {
        NewWriteIsKnown(h, s, e);
      }
    }
    forall o | 0 <= o < |r.objs| && r.objs[o].raw.Sending?
      ensures r.objs[o].raw.write.obj == o && r.objs[o].raw.write.route.ViaMain?
    {
      RawWritesOwn(h, s, e, o);
    }
  }

  /** Relay isolation over whole runs: without a stale adoption, every address a session's packets are
      written to has itself spoken to that session since its registration. */
  lemma {:induction false} Isolation(h: Hash, evs: seq<Event>)
    requires Exec(h, evs).Some?
    requires forall j :: 0 <= j < |evs| ==> !AdoptsStale(h, evs, j)
    ensures SlotsHeard(h, evs) && WritesHeard(h, evs)
  {
    if evs != [] {
      var front := evs[..|evs| - 1];
      var s, e := LastStep(h, evs);
      forall j | 0 <= j < |front|
        ensures !AdoptsStale(h, front, j)
      {
        StalePrefix(h, evs, |front|, j);
      }
      Isolation(h, front);
      SlotsHeardStep(h, evs);
      WritesHeardStep(h, evs);
    }
  }

  lemma StalePrefix(h: Hash, evs: seq<Event>, n: nat, j: nat)
    requires j < n <= |evs|
    ensures AdoptsStale(h, evs[..n], j) <==> AdoptsStale(h, evs, j)
  {
    assert evs[..n][..j] == evs[..j] && evs[..n][j] == evs[j];
  }

  /** Every address a session ever knows has spoken to it since its registration, at every moment of a
      run, if and only if the run never adopts the sender of a packet older than the session. */
  lemma IsolationIff(h: Hash, evs: seq<Event>)
    requires Exec(h, evs).Some?
    ensures (forall n :: 0 <= n <= |evs| ==> SlotsHeard(h, evs[..n])) <==>
            (forall j :: 0 <= j < |evs| ==> !AdoptsStale(h, evs, j))
  {
    if forall j :: 0 <= j < |evs| ==> !AdoptsStale(h, evs, j) {
      forall n | 0 <= n <= |evs|
        ensures SlotsHeard(h, evs[..n])
      {
        PrefixRuns(h, evs, n);
        forall j | 0 <= j < n
          ensures !AdoptsStale(h, evs[..n], j)
        {
          StalePrefix(h, evs, n, j);
        }
        Isolation(h, evs[..n]);
      }
    } else {
      var j :| 0 <= j < |evs| && AdoptsStale(h, evs, j);
      PrefixRuns(h, evs, j + 1);
      StalePrefix(h, evs, j + 1, j);
      StaleBreaks(h, evs[..j + 1]);
    }
  }

  /** No registration starts while a packet waits between the two locks. */
  ghost predicate NoBindInGap(h: Hash, evs: seq<Event>) {
    forall i :: 0 <= i < |evs| && evs[i].Bind? && Exec(h, evs[..i]).Some? ==> !Exec(h, evs[..i]).value.main.Between?
  }

  lemma {:induction false} GapSeesAll(h: Hash, evs: seq<Event>)
    requires Exec(h, evs).Some? && NoBindInGap(h, evs)
    ensures Exec(h, evs).value.main.Between? ==> Exec(h, evs).value.main.seen == |Exec(h, evs).value.objs|
  {
    if evs != [] {
      var front := evs[..|evs| - 1];
      var s, e := LastStep(h, evs);
      NoBindInGapPrefix(h, evs, |front|);
      GapSeesAll(h, front);
      StepFrame(h, s, e);
      if Next(h, s, e).main.Between? && !e.Receive? {
        GapUnchanged(h, s, e);
        assert evs[|front|] == e && evs[..|front|] == front;
      }
    }
  }

  lemma NoBindInGapPrefix(h: Hash, evs: seq<Event>, n: nat)
    requires NoBindInGap(h, evs) && n <= |evs|
    ensures NoBindInGap(h, evs[..n])
  {
    forall i | 0 <= i < n && evs[..n][i].Bind? && Exec(h, evs[..n][..i]).Some?
      ensures !Exec(h, evs[..n][..i]).value.main.Between?
    {
      assert evs[..n][..i] == evs[..i] && evs[..n][i] == evs[i];
    }
  }

  /** A condition on registrations alone that rules stale adoptions out. */
  lemma NoBindInGapIsolates(h: Hash, evs: seq<Event>)
    requires Exec(h, evs).Some? && NoBindInGap(h, evs)
    ensures SlotsHeard(h, evs) && WritesHeard(h, evs)
  {
    forall j | 0 <= j < |evs|
      ensures !AdoptsStale(h, evs, j)
    {
      PrefixRuns(h, evs, j);
      NoBindInGapPrefix(h, evs, j);
      GapSeesAll(h, evs[..j]);
    }
    Isolation(h, evs);
  }

  // ---- The race ----

  /** A run that breaks isolation: a packet of `x` is read and found to need the write lock; the token is
      registered again; the slow path makes `x` the first peer of the new session, and a packet of `y` is
      then written to `x`, which has never spoken to the new session. */
  lemma RegistrationRace(h: Hash) returns (evs: seq<Event>)
    ensures |evs| == 9 && Exec(h, evs).Some? && AdoptsStale(h, evs, 5)
    ensures var s := Exec(h, evs).value;
            && s.sent == [Write(1, FromMain, "y", ViaMain("x"), [7])]
            && !Heard(h, evs, 1, TokenID(h, "t"), "x")
  {
    var hello, data := Wrap(TokenID(h, "t"), []), Wrap(TokenID(h, "t"), [7]);
    var setup := [Bind("t", "s", true), Install(0), Receive("x", hello, Some(0)), Bind("t", "s", true), Install(1)];
    var s := RaceSetup(h, hello);
    RaceFinish(h, setup, s, hello, data);
    evs := setup + [Relock(Some(1)), Receive("y", data, Some(1)), Relock(Some(1)), Forward];
    assert evs[..5] == setup && evs[..2] == setup[..2];
    PrefixRuns(h, setup, 2);
    assert |Exec(h, evs[..2]).value.objs| <= 1 by { RaceOneObject(h, evs[..2]); }
    RaceUnheard(h, setup, evs);
    RaceAdopts(h, evs, s, hello);
  }

  lemma RaceAdopts(h: Hash, evs: seq<Event>, s: State, hello: Bytes)
    requires |evs| > 5 && Exec(h, evs[..5]) == Some(s) && evs[5] == Relock(Some(1))
    requires hello == Wrap(TokenID(h, "t"), [])
    requires s.main == Between("x", hello, 1) && s.table == map["t" := 1]
    requires |s.objs| == 2 && s.objs[1] == Object(NewSession(h, "t", "s", None, 0), NotStarted, 0)
    requires forall i :: 0 <= i < 5 ==> !evs[i].RawReceive?
    ensures AdoptsStale(h, evs, 5)
  {
    ParseWrap(TokenID(h, "t"), []);
  }

  lemma RaceOneObject(h: Hash, evs: seq<Event>)
    requires Exec(h, evs).Some? && evs == [Bind("t", "s", true), Install(0)]
    ensures |Exec(h, evs).value.objs| == 1
  {
    var s, e := LastStep(h, evs);
    StepFrame(h, s, e);
    assert evs[..1] == [] + [Bind("t", "s", true)];
    OneMore(h, [], INIT, Bind("t", "s", true));
  }

  /** The slow path adopts `x`; then `y` speaks, becomes the second peer, and its packet goes to `x`. */
  lemma RaceFinish(h: Hash, evs: seq<Event>, s: State, hello: Bytes, data: Bytes)
    requires Exec(h, evs) == Some(s) && hello == Wrap(TokenID(h, "t"), []) && data == Wrap(TokenID(h, "t"), [7])
    requires s.now == 0 && s.main == Between("x", hello, 1) && s.table == map["t" := 1] && s.sent == []
    requires |s.objs| == 2 && s.objs[1] == Object(NewSession(h, "t", "s", None, 0), NotStarted, 0)
    ensures var all := evs + [Relock(Some(1)), Receive("y", data, Some(1)), Relock(Some(1)), Forward];
            && Exec(h, all).Some?
            && Exec(h, all).value.sent == [Write(1, FromMain, "y", ViaMain("x"), [7])]
  {
    var id := TokenID(h, "t");
    ParseWrap(id, []);
    ParseWrap(id, [7]);
    var blank := NewSession(h, "t", "s", None, 0);
    OneMore(h, evs, s, Relock(Some(1)));
    var s1 := Next(h, s, Relock(Some(1)));
    assert s1.objs[1].sess == blank.(peerA := Some("x")) && s1.main == Listening;
    OneMore(h, evs + [Relock(Some(1))], s1, Receive("y", data, Some(1)));
    var s2 := Next(h, s1, Receive("y", data, Some(1)));
    assert s2.main == Between("y", data, 2) && s2.objs == s1.objs;
    OneMore(h, evs + [Relock(Some(1))] + [Receive("y", data, Some(1))], s2, Relock(Some(1)));
    var s3 := Next(h, s2, Relock(Some(1)));
    assert s3.main == Forwarding(Write(1, FromMain, "y", ViaMain("x"), [7]));
    OneMore(h, evs + [Relock(Some(1))] + [Receive("y", data, Some(1))] + [Relock(Some(1))], s3, Forward);
    assert evs + [Relock(Some(1)), Receive("y", data, Some(1)), Relock(Some(1)), Forward]
        == evs + [Relock(Some(1))] + [Receive("y", data, Some(1))] + [Relock(Some(1))] + [Forward];
  }

  /** After a packet was read for object 0 and its token registered again as object 1. */
  lemma RaceSetup(h: Hash, hello: Bytes) returns (s: State)
    requires hello == Wrap(TokenID(h, "t"), [])
    ensures var bind := Bind("t", "s", true);
            Exec(h, [bind, Install(0), Receive("x", hello, Some(0)), bind, Install(1)]) == Some(s)
    ensures s.now == 0 && s.main == Between("x", hello, 1) && s.table == map["t" := 1] && s.sent == []
    ensures s.objs ==
            [Object(NewSession(h, "t", "s", None, 0), NotStarted, 0),
             Object(NewSession(h, "t", "s", None, 0), NotStarted, 0)]
  {
    ParseWrap(TokenID(h, "t"), []);
    var s1 := Next(h, INIT, Bind("t", "s", true));
    OneMore(h, [], INIT, Bind("t", "s", true));
    var s2 := Next(h, s1, Install(0));
    OneMore(h, [] + [Bind("t", "s", true)], s1, Install(0));
    var s3 := Next(h, s2, Receive("x", hello, Some(0)));
    OneMore(h, [] + [Bind("t", "s", true)] + [Install(0)], s2, Receive("x", hello, Some(0)));
    var s4 := Next(h, s3, Bind("t", "s", true));
    OneMore(h, [] + [Bind("t", "s", true)] + [Install(0)] + [Receive("x", hello, Some(0))], s3, Bind("t", "s", true));
    s := Next(h, s4, Install(1));
    OneMore(h, [] + [Bind("t", "s", true)] + [Install(0)] + [Receive("x", hello, Some(0))] + [Bind("t", "s", true)],
            s4, Install(1));
    assert [Bind("t", "s", true), Install(0), Receive("x", hello, Some(0)), Bind("t", "s", true), Install(1)]
        == [] + [Bind("t", "s", true)] + [Install(0)] + [Receive("x", hello, Some(0))] + [Bind("t", "s", true)]
           + [Install(1)];
  }

  lemma RaceUnheard(h: Hash, setup: seq<Event>, evs: seq<Event>)
    requires |setup| == 5 && setup <= evs && |evs| == 9
    requires Exec(h, evs[..2]).Some? && |Exec(h, evs[..2]).value.objs| <= 1
    requires forall i :: 0 <= i < 9 && i != 2 ==> !evs[i].RawReceive? && !(evs[i].Receive? && evs[i].src == "x")
    requires evs[2].Receive?
    ensures !Heard(h, evs, 1, TokenID(h, "t"), "x")
  {
  }
}
