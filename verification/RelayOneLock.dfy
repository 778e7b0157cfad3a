/** The two-lock main loop against the simple one: every packet handled at once, under one lock. */
module RelayOneLock {
  import opened Text
  import opened Frames
  import opened Routing
  import opened RelayMachine

  /** Either a step the two machines share, or one packet looked up and routed under a single lock.
      `stamp` says whether a stranger's packet counts as activity. */
  datatype Simple = Other(e: Event) | Packet(src: Addr, datagram: Bytes, found: Option<nat>, stamp: bool)

  ghost predicate SimpleEnabled(s: State, e: Simple) {
    match e
    case Other(e) => !e.Receive? && !e.Relock? && Enabled(s, e)
    case Packet(src, datagram, found, _) => Enabled(s, Receive(src, datagram, found))
  }

  ghost function SimpleNext(h: Hash, s: State, e: Simple): State
    requires SimpleEnabled(s, e)
  {
    match e
    case Other(e) => Next(h, s, e)
    case Packet(src, datagram, found, stamp) =>
      match found
      case None => s
      case Some(o) =>
        var sess := s.objs[o].sess;
        var r := SlowPath(sess, src, s.now);
        var after := if Stranger(sess, src) && stamp then r.session.(lastActive := s.now) else r.session;
        SetSession(s, o, after).(main := AfterRoute(o, src, r.route, datagram))
  }

  ghost function SimpleExec(h: Hash, evs: seq<Simple>): Option<State> {
    if evs == [] then Some(INIT)
    else
      match SimpleExec(h, evs[..|evs| - 1])
      case None => None
      case Some(s) => if SimpleEnabled(s, evs[|evs| - 1]) then Some(SimpleNext(h, s, evs[|evs| - 1])) else None
  }

  /** A packet between the two locks has not been handled yet. */
  function Abs(s: State): State {
    if s.main.Between? then s.(main := Listening) else s
  }

  /** The simple step an event amounts to: a packet counts under the last lock it is looked up under. */
  function Simplify(s: State, e: Event): seq<Simple>
    requires e.Relock? ==> s.main.Between?
    requires e.Receive? && e.found.Some? ==> e.found.value < |s.objs|
  {
    match e
    case Receive(src, datagram, found) =>
      if found.Some? && NeedsWrite(s.objs[found.value].sess, src) then [] else [Packet(src, datagram, found, true)]
    case Relock(found) => [Packet(s.main.src, s.main.datagram, found, false)]
    case _ => [Other(e)]
  }

  /** Only a received relay packet waits between the locks. */
  ghost predicate GapOk(s: State) {
    s.main.Between? ==> Parse(s.main.datagram).Frame?
  }

  lemma GapStep(h: Hash, s: State, e: Event)
    requires Enabled(s, e) && GapOk(s)
    ensures GapOk(Next(h, s, e))
  {
  }

  /** Lookups do not depend on where the main loop is. */
  lemma AbsEnabled(s: State, e: Event)
    requires Enabled(s, e) && !e.Receive? && !e.Relock?
    ensures Enabled(Abs(s), e)
  {
  }

  lemma PacketStep(h: Hash, s: State, e: Event)
    requires Enabled(s, e) && GapOk(s) && (e.Receive? || e.Relock?)
    requires Simplify(s, e) != []
    ensures SimpleEnabled(Abs(s), Simplify(s, e)[0])
    ensures SimpleNext(h, Abs(s), Simplify(s, e)[0]) == Abs(Next(h, s, e))
  {
    if e.Receive? && e.found.Some? {
      FastRefinesSlow(s.objs[e.found.value].sess, e.src, s.now);
    }
  }

  lemma OtherStep(h: Hash, s: State, e: Event)
    requires Enabled(s, e) && !e.Receive? && !e.Relock?
    ensures Enabled(Abs(s), e) && Next(h, Abs(s), e) == Abs(Next(h, s, e))
  {
    AbsEnabled(s, e);
    if s.main.Between? {
      assert !e.Forward?;
    }
  }

  /** One event of the relay is one step, or no step, of the simple machine. */
  lemma EventRefines(h: Hash, s: State, e: Event)
    requires Enabled(s, e) && GapOk(s)
    ensures |Simplify(s, e)| <= 1
    ensures Simplify(s, e) == [] ==> Abs(Next(h, s, e)) == Abs(s) && e.Receive? && Next(h, s, e).main.Between?
    ensures Simplify(s, e) != [] ==>
              SimpleEnabled(Abs(s), Simplify(s, e)[0]) && SimpleNext(h, Abs(s), Simplify(s, e)[0]) == Abs(Next(h, s, e))
  {
    if e.Receive? || e.Relock? {
      if Simplify(s, e) != [] { PacketStep(h, s, e); }
    } else {
      OtherStep(h, s, e);
    }
  }

  ghost function SimplifyRun(h: Hash, evs: seq<Event>): seq<Simple>
    requires Exec(h, evs).Some?
  {
    if evs == [] then []
    else
      SimplifyRun(h, evs[..|evs| - 1]) + Simplify(Exec(h, evs[..|evs| - 1]).value, evs[|evs| - 1])
  }

  ghost function CountReceived(evs: seq<Event>): nat {
    if evs == [] then 0
    else CountReceived(evs[..|evs| - 1]) + if evs[|evs| - 1].Receive? then 1 else 0
  }

  ghost function CountPackets(evs: seq<Simple>): nat {
    if evs == [] then 0
    else CountPackets(evs[..|evs| - 1]) + if evs[|evs| - 1].Packet? then 1 else 0
  }

  /** Every run of the relay, with whatever happens between the two locks, is a run of the one-lock
      machine: it ends in the same sessions, sockets and writes, and each packet received is routed
      exactly once, except one that still waits between the locks. */
  lemma {:induction false} TwoLocksRefineOne(h: Hash, evs: seq<Event>)
    requires Exec(h, evs).Some?
    ensures GapOk(Exec(h, evs).value)
    ensures SimpleExec(h, SimplifyRun(h, evs)) == Some(Abs(Exec(h, evs).value))
    ensures CountReceived(evs) ==
            CountPackets(SimplifyRun(h, evs)) + if Exec(h, evs).value.main.Between? then 1 else 0
  {
    if evs != [] {
      var front := evs[..|evs| - 1];
      var s, e := LastStep(h, evs);
      TwoLocksRefineOne(h, front);
      GapStep(h, s, e);
      EventRefines(h, s, e);
      var before, step := SimplifyRun(h, front), Simplify(s, e);
      if step == [] {
        assert before + step == before;
      } else {
        assert (before + step)[..|before + step| - 1] == before;
        assert (before + step)[|before + step| - 1] == step[0];
      }
      BetweenCounts(h, s, e);
    }
  }

  /** A packet enters the gap only by being received and leaves it only by being routed. */
  lemma BetweenCounts(h: Hash, s: State, e: Event)
    requires Enabled(s, e)
    ensures var step, was, now := Simplify(s, e), s.main.Between?, Next(h, s, e).main.Between?;
            && (e.Receive? ==> !was && (now <==> step == []))
            && (e.Relock? ==> was && !now)
            && (!e.Receive? && !e.Relock? ==> (now <==> was))
            && (step != [] && step[0].Packet? <==> (e.Receive? && !now) || e.Relock?)
  {
  }
}
