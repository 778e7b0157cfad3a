/** Whole runs of the relay: peer slots, writes, raw sockets, time. */
module RelayRuns {
  import opened Frames
  import opened Routing
  import opened RelayMachine

  // ---- Peer slots ----

  /** A write of the main loop on the main socket never goes back to where its packet came from. */
  predicate NotBounced(w: Write) {
    w.origin.FromMain? && w.route.ViaMain? ==> w.route.dst != w.src
  }

  ghost predicate PeersInv(s: State) {
    && (forall o :: 0 <= o < |s.objs| ==> PeersOk(s.objs[o].sess))
    && (forall o :: 0 <= o < |s.objs| && s.objs[o].raw.Sending? ==> s.objs[o].raw.write.origin.FromRaw?)
    && (s.main.Forwarding? ==> NotBounced(s.main.write))
    && (forall i :: 0 <= i < |s.sent| ==> NotBounced(s.sent[i]))
  }

  /** What one step may do to the peer slots of an existing session object. */
  predicate SlotsKept(a: Session, b: Session) {
    && (a.peerA.Some? ==> b.peerA == a.peerA)
    && (a.peerB.Some? ==> b.peerB == a.peerB)
    && (a.renterAddr.Some? ==> b.renterAddr.Some? && b.peerB == a.peerB)
    && (b.token, b.tokenID, b.rawConn) == (a.token, a.tokenID, a.rawConn)
  }

  lemma RoutedKeepsSlots(a: Session, src: Addr, now: int)
    requires PeersOk(a)
    ensures PeersOk(SlowPath(a, src, now).session) && SlotsKept(a, SlowPath(a, src, now).session)
    ensures !NeedsWrite(a, src) ==>
              PeersOk(FastPath(a, src, now).session) && SlotsKept(a, FastPath(a, src, now).session)
  {
  }

  lemma PeersStepMain(h: Hash, s: State, e: Event)
    requires Enabled(s, e) && PeersInv(s) && (e.Receive? || e.Relock? || e.Forward?)
    ensures PeersInv(Next(h, s, e))
    ensures Touched(e).Some? ==> SlotsKept(s.objs[Touched(e).value].sess, Next(h, s, e).objs[Touched(e).value].sess)
  {
    StepFrame(h, s, e);
    if e.Receive? && e.found.Some? {
      RoutedKeepsSlots(s.objs[e.found.value].sess, e.src, s.now);
    } else if e.Relock? && e.found.Some? {
      RoutedKeepsSlots(s.objs[e.found.value].sess, s.main.src, s.now);
    }
  }

  lemma PeersStepRaw(h: Hash, s: State, e: Event)
    requires Enabled(s, e) && PeersInv(s) && IsRaw(e)
    ensures PeersInv(Next(h, s, e))
    ensures SlotsKept(s.objs[e.o].sess, Next(h, s, e).objs[e.o].sess)
  {
    StepFrame(h, s, e);
  }

  lemma PeersStepTable(h: Hash, s: State, e: Event)
    requires Enabled(s, e) && PeersInv(s) && !IsRaw(e) && !e.Receive? && !e.Relock? && !e.Forward?
    ensures PeersInv(Next(h, s, e))
    ensures Touched(e).Some? ==> SlotsKept(s.objs[Touched(e).value].sess, Next(h, s, e).objs[Touched(e).value].sess)
  {
    StepFrame(h, s, e);
  }

  /** Each step changes the slots of at most one object, and only by filling empty ones. */
  lemma PeersStep(h: Hash, s: State, e: Event)
    requires Enabled(s, e) && PeersInv(s)
    ensures |Next(h, s, e).objs| >= |s.objs|
    ensures forall o :: 0 <= o < |s.objs| ==> SlotsKept(s.objs[o].sess, Next(h, s, e).objs[o].sess)
    ensures PeersInv(Next(h, s, e))
  {
    StepFrame(h, s, e);
    if IsRaw(e) {
      PeersStepRaw(h, s, e);
    } else if e.Receive? || e.Relock? || e.Forward? {
      PeersStepMain(h, s, e);
    } else {
      PeersStepTable(h, s, e);
    }
  }

  /** In every reachable state `peerB` is set only beside a different `peerA`, and no packet of the
      main loop was written back to its sender on the main socket. */
  lemma {:induction false} PeersAlways(h: Hash, evs: seq<Event>)
    requires Exec(h, evs).Some?
    ensures PeersInv(Exec(h, evs).value)
  {
    if evs != [] {
      var s, e := LastStep(h, evs);
      PeersAlways(h, evs[..|evs| - 1]);
      PeersStep(h, s, e);
    }
  }

  /** Over any stretch of a run a filled slot keeps its address for ever, and `peerB` is not filled
      once a raw renter is known. */
  lemma {:induction false} SlotsWrittenOnce(h: Hash, evs: seq<Event>, n: nat, o: nat)
    requires n <= |evs| && Exec(h, evs).Some? && Exec(h, evs[..n]).Some?
    requires o < |Exec(h, evs[..n]).value.objs|
    ensures o < |Exec(h, evs).value.objs|
    ensures SlotsKept(Exec(h, evs[..n]).value.objs[o].sess, Exec(h, evs).value.objs[o].sess)
  {
    if n == |evs| {
      assert evs[..n] == evs;
    } else {
      var s, e := LastStep(h, evs);
      var front := evs[..|evs| - 1];
      assert front[..n] == evs[..n];
      SlotsWrittenOnce(h, front, n, o);
      PeersAlways(h, front);
      PeersStep(h, s, e);
    }
  }
}
