/** Idle sessions of the relay in time. */
module RelayTime {
  import opened Text
  import opened Frames
  import opened Routing
  import opened RelayMachine
  import opened RelaySockets

  /** A sweep removes exactly the sessions idle for more than the timeout and touches no other. */
  lemma SweepRemovesExactlyIdle(h: Hash, s: State, o: nat)
    requires WF(h, s) && InTable(s, o)
    ensures var r := Next(h, s, Sweep);
            && (InTable(r, o) <==> s.now - s.objs[o].sess.lastActive <= IDLE_TIMEOUT)
            && r.objs == s.objs && r.installing == s.installing && r.closing == s.closing
            && (SocketOpen(r, o) <==> SocketOpen(s, o) && InTable(r, o))
  {
  }

  /** The ticker fires every sweep period, and the reaper waits for the lock for at most `late`: no wait goes past
      that. */
  predicate OnTime(s: State, e: Event, late: nat) {
    e.Wait? ==> s.now + e.d <= s.sweptAt + SWEEP_PERIOD + late
  }

  ghost predicate TimelyRun(h: Hash, evs: seq<Event>, late: nat) {
    forall i :: 0 <= i < |evs| ==> Exec(h, evs[..i]).Some? ==> OnTime(Exec(h, evs[..i]).value, evs[i], late)
  }

  /** The last sign of life of a session in the map: its last stamp, or its entry into the map. */
  function LastSign(x: Object): int {
    if x.sess.lastActive >= x.installedAt then x.sess.lastActive else x.installedAt
  }

  ghost predicate Recent(s: State, late: nat) {
    && s.sweptAt <= s.now <= s.sweptAt + SWEEP_PERIOD + late
    && (forall o :: 0 <= o < |s.objs| && InTable(s, o) ==> LastSign(s.objs[o]) >= s.sweptAt - IDLE_TIMEOUT)
  }

  /** Stamps never go back. */
  lemma SignsGoForward(h: Hash, s: State, e: Event, o: nat)
    requires Enabled(s, e) && o < |s.objs|
    ensures o < |Next(h, s, e).objs|
    ensures var a, b := s.objs[o], Next(h, s, e).objs[o];
            && (b.sess.lastActive == a.sess.lastActive || b.sess.lastActive == s.now)
            && (b.installedAt == a.installedAt || (b.installedAt == s.now && e == Install(o)))
            && (e == Install(o) ==> b.installedAt == s.now)
  {
    StepFrame(h, s, e);
  }

  lemma RecentStep(h: Hash, s: State, e: Event, late: nat)
    requires WF(h, s) && Enabled(s, e) && OnTime(s, e, late) && Recent(s, late)
    ensures Recent(Next(h, s, e), late)
  {
    StepFrame(h, s, e);
    var r := Next(h, s, e);
    forall o | 0 <= o < |r.objs| && InTable(r, o)
      ensures LastSign(r.objs[o]) >= r.sweptAt - IDLE_TIMEOUT
    {
      if o < |s.objs| {
        SignsGoForward(h, s, e, o);
        InMapNow(h, s, e, o);
      } else {
        NewObject(h, s, e);
      }
    }
  }

  /** With a sweep every 30 s no session stays in the map more than 90 s after its last sign of life, or as much more
      as the reaper waits for the lock. */
  lemma {:induction false} NoneOutlivesNinetySeconds(h: Hash, evs: seq<Event>, late: nat)
    requires Exec(h, evs).Some? && TimelyRun(h, evs, late)
    ensures var s := Exec(h, evs).value;
            && Recent(s, late)
            && s.now - s.sweptAt <= 30_000_000_000 + late
            && forall o :: 0 <= o < |s.objs| && InTable(s, o) ==> s.now - LastSign(s.objs[o]) <= 90_000_000_000 + late
  {
    if evs != [] {
      var front := evs[..|evs| - 1];
      var s, e := LastStep(h, evs);
      forall i | 0 <= i < |front| && Exec(h, front[..i]).Some?
        ensures OnTime(Exec(h, front[..i]).value, front[i], late)
      {
        assert front[..i] == evs[..i];
      }
      NoneOutlivesNinetySeconds(h, front, late);
      AlwaysWF(h, front);
      RecentStep(h, s, e, late);
    }
  }

  /** A session leaves the map only by an invalidation or removal of its token, by a registration over
      it, or by a sweep more than 60 s after its last stamp. */
  lemma WhyRemoved(h: Hash, s: State, e: Event, o: nat)
    requires WF(h, s) && Enabled(s, e) && InTable(s, o) && !InTable(Next(h, s, e), o)
    ensures || e == Unlink(s.objs[o].sess.token)
            || (e.Install? && s.objs[e.o].sess.token == s.objs[o].sess.token && e.o != o)
            || (e.Sweep? && s.now - s.objs[o].sess.lastActive > IDLE_TIMEOUT)
  {
    InMapNow(h, s, e, o);
  }

  // ---- Signs of life, on the events of a run ----

  /** The events that keep session object `o` alive: its own registration, a packet of one of its peers or that makes
      its sender one, anyone's packet that the read lock was enough for, and a packet on its raw port. */
  predicate Sign(s: State, e: Event, o: nat) {
    || (e.Bind? && o == |s.objs|)
    || (e.Receive? && e.found == Some(o) && o < |s.objs| && !NeedsWrite(s.objs[o].sess, e.src))
    || (e.Relock? && e.found == Some(o) && o < |s.objs| && s.main.Between? && !Stranger(s.objs[o].sess, s.main.src))
    || (e.RawReceive? && e.o == o)
  }

  /** A step stamps a session with its time exactly if it is such an event. */
  lemma StampsOnSign(h: Hash, s: State, e: Event, o: nat)
    requires Enabled(s, e) && o < |Next(h, s, e).objs|
    ensures if Sign(s, e, o) then Next(h, s, e).objs[o].sess.lastActive == s.now
            else o < |s.objs| && Next(h, s, e).objs[o].sess.lastActive == s.objs[o].sess.lastActive
  {
    StepFrame(h, s, e);
  }

  ghost predicate SignAt(h: Hash, evs: seq<Event>, i: nat, o: nat) {
    i < |evs| && Exec(h, evs[..i]).Some? && Sign(Exec(h, evs[..i]).value, evs[i], o)
  }

  /** When event `i` of a run happens. */
  ghost function TimeOf(h: Hash, evs: seq<Event>, i: nat): int
    requires i <= |evs| && Exec(h, evs[..i]).Some?
  {
    Exec(h, evs[..i]).value.now
  }

  lemma {:induction false} TimePasses(h: Hash, evs: seq<Event>, i: nat)
    requires i <= |evs| && Exec(h, evs).Some?
    ensures Exec(h, evs[..i]).Some? && TimeOf(h, evs, i) <= Exec(h, evs).value.now
  {
    PrefixRuns(h, evs, i);
    if i == |evs| {
      assert evs[..i] == evs;
    } else {
      var s, e := LastStep(h, evs);
      TimePasses(h, evs[..|evs| - 1], i);
      assert evs[..|evs| - 1][..i] == evs[..i];
    }
  }

  /** In every run each session object has had a sign of life, its stamp is the time of the latest one, and all others
      are at most as late. */
  lemma {:induction false} StampIsLatestSign(h: Hash, evs: seq<Event>, o: nat) returns (i: nat)
    requires Exec(h, evs).Some? && o < |Exec(h, evs).value.objs|
    ensures SignAt(h, evs, i, o) && TimeOf(h, evs, i) == Exec(h, evs).value.objs[o].sess.lastActive
    ensures forall j :: 0 <= j < |evs| && SignAt(h, evs, j, o) ==> TimeOf(h, evs, j) <= TimeOf(h, evs, i)
    decreases |evs|
  {
    var front, last := evs[..|evs| - 1], |evs| - 1;
    var s, e := LastStep(h, evs);
    StampsOnSign(h, s, e, o);
    if Sign(s, e, o) {
      i := last;
      forall j | 0 <= j < |evs| && SignAt(h, evs, j, o) ensures TimeOf(h, evs, j) <= TimeOf(h, evs, i) {
        TimePasses(h, front, j);
        assert front[..j] == evs[..j];
      }
    } else {
      i := StampIsLatestSign(h, front, o);
      assert front[..i] == evs[..i];
      forall j | 0 <= j < |evs| && SignAt(h, evs, j, o) ensures TimeOf(h, evs, j) <= TimeOf(h, evs, i) {
        assert j < last && front[..j] == evs[..j];
        assert SignAt(h, front, j, o);
      }
    }
  }

  /** A session in the map is removed by a sweep, and its raw socket closed, exactly if each of its signs of life is
      more than 60 seconds ago: registering it counts as one. */
  lemma SweepSparesTheLiving(h: Hash, evs: seq<Event>, o: nat)
    requires Exec(h, evs).Some? && InTable(Exec(h, evs).value, o)
    ensures var s := Exec(h, evs).value;
            && (InTable(Next(h, s, Sweep), o) <==>
                  exists i :: 0 <= i < |evs| && SignAt(h, evs, i, o) && s.now - TimeOf(h, evs, i) <= 60_000_000_000)
            && (SocketOpen(Next(h, s, Sweep), o) <==> SocketOpen(s, o) && InTable(Next(h, s, Sweep), o))
  {
    AlwaysWF(h, evs);
    SweepRemovesExactlyIdle(h, Exec(h, evs).value, o);
    var latest := StampIsLatestSign(h, evs, o);
  }
}
