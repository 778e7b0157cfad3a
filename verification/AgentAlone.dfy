/** A start that nothing interrupts is the start of one call at a time: the step machine and the class agree. */
module AgentAlone {
  import opened AgentDaemon
  import opened AgentRuns

  /** What the host holds, whoever made it. */
  function HostOf(s: State): Host {
    Host(s.containers.Keys, s.configs.Keys, s.tunnels.Keys,
         set p | p in s.tasks && p.0 < |s.starts| :: (s.starts[p.0].id, p.1))
  }

  /** The session can start: it is not tracked, nothing runs for it, and whatever runs belongs to a start. */
  ghost predicate Startable(s: State, id: string) {
    && id !in s.sessions
    && (forall p :: p in s.tasks ==> p.0 < |s.starts| && s.starts[p.0].id != id)
  }

  /** The goroutines start `t` has begun when its foreign calls are over. */
  function ByStart(t: nat, l: Luck): (r: set<(nat, Task)>)
    ensures forall p :: p in r <==> p.0 == t && p.1 in Begun(l)
  {
    (if RelayClient in Begun(l) then {(t, RelayClient)} else {})
    + (if SSHProxy in Begun(l) then {(t, SSHProxy)} else {})
  }

  /** The record of the start when its foreign calls are over. */
  function RecordAfter(t: nat, id: string, l: Luck): Start {
    Start(id, if Succeeds(l) then Phase.Running else Phase.Failed, if Succeeds(l) then Idle else GivingUp, Idle,
          l.container.Started?, l.container.Started? && l.peerKeyFound && l.configWritten,
          ByStart(t, l), Left(l.container.LeftBehind?, false, false))
  }

  /** The state when the foreign calls of a start from `s` are over. */
  function AcquiredState(s: State, id: string, l: Luck): State {
    var t, n := |s.starts|, Name(id);
    State(s.sessions[id := t], s.starts + [RecordAfter(t, id, l)],
          ContainersAfter(s.containers, NewStart(id), t, StartContainer(t, l.container)),
          s.tasks + ByStart(t, l),
          if MakesConfig(l) then s.configs[n := t] else s.configs,
          if MakesTunnel(l) then s.tunnels[n := t] else s.tunnels)
  }

  lemma HostAcquired(s: State, id: string, l: Luck)
    requires Startable(s, id)
    ensures HostOf(AcquiredState(s, id, l)) == Acquired(HostOf(s), id, l)
  {
    var r := AcquiredState(s, id, l);
    assert HostOf(r).containers == Acquired(HostOf(s), id, l).containers;
    TasksAcquired(s, id, l);
  }

  lemma TasksAcquired(s: State, id: string, l: Luck)
    requires Startable(s, id)
    ensures HostOf(AcquiredState(s, id, l)).tasks == Acquired(HostOf(s), id, l).tasks
  {
    var r, t := AcquiredState(s, id, l), |s.starts|;
    forall q | q in Acquired(HostOf(s), id, l).tasks ensures q in HostOf(r).tasks {
      if q in HostOf(s).tasks {
        var p :| p in s.tasks && p.0 < |s.starts| && q == (s.starts[p.0].id, p.1);
        assert p in r.tasks && r.starts[p.0] == s.starts[p.0];
      } else {
        assert (t, q.1) in r.tasks && r.starts[t].id == id;
      }
    }
    forall q | q in HostOf(r).tasks ensures q in Acquired(HostOf(s), id, l).tasks {
      var p :| p in r.tasks && p.0 < |r.starts| && q == (r.starts[p.0].id, p.1);
      if p in s.tasks {
        assert r.starts[p.0] == s.starts[p.0];
        assert q in HostOf(s).tasks;
      }
    }
  }

  // ---- The steps ----

  /** The first events of `r` are `evs`, the others are those of start `t` of the session alone. */
  ghost predicate Alone(evs: seq<Event>, r: seq<Event>, id: string, t: nat) {
    evs <= r && forall i :: |evs| <= i < |r| ==> if r[i].Begin? then r[i].id == id else !r[i].Stop? && r[i].t == t
  }

  function Stage(s: State, id: string, x: Start): State {
    s.(sessions := s.sessions[id := |s.starts|], starts := s.starts + [x])
  }

  lemma Replaced(starts: seq<Start>, x: Start, y: Start)
    ensures (starts + [x])[|starts| := y] == starts + [y] && (starts + [x])[|starts|] == x
  {
  }

  /** One step of the last start that leaves the table alone. */
  lemma LastSteps(evs: seq<Event>, s: State, id: string, x: Start, e: Event)
    requires Exec(evs) == Stage(s, id, x) && x.id == id && !e.Begin? && e.t == |s.starts| && Enabled(Exec(evs), e)
    requires !e.StartProxy? && !e.Stop? && !e.Unwind?
    ensures var t := |s.starts|;
            Exec(evs + [e]) == Stage(State(s.sessions, s.starts, ContainersAfter(s.containers, x, t, e),
                                           TasksAfter(s.tasks, x, t, e), ConfigsAfter(s.configs, x, t, e),
                                           TunnelsAfter(s.tunnels, x, t, e)), id, StartAfter(x, t, e, false))
  {
    Extend(evs, e);
    Replaced(s.starts, x, StartAfter(x, e.t, e, false));
  }

  lemma UpToContainer(evs: seq<Event>, id: string, l: Luck) returns (r: seq<Event>)
    requires id !in Exec(evs).sessions
    ensures Alone(evs, r, id, |Exec(evs).starts|)
    ensures var s, t := Exec(evs), |Exec(evs).starts|;
            if l.container.Started?
            then Exec(r) == Stage(s.(containers := s.containers[Name(id) := t]), id,
                                  NewStart(id).(phase := Contained, container := true))
            else Exec(r) == AcquiredState(s, id, l)
  {
    var s, t := Exec(evs), |Exec(evs).starts|;
    var e1, e2 := Begin(id), StartContainer(t, l.container);
    Extend(evs, e1);
    LastSteps(evs + [e1], s, id, NewStart(id), e2);
    r := evs + [e1] + [e2];
    if !l.container.Started? {
      assert ByStart(t, l) == {} && s.tasks + {} == s.tasks;
    }
  }

  lemma UpToNegotiation(evs: seq<Event>, id: string, l: Luck) returns (r: seq<Event>)
    requires id !in Exec(evs).sessions
    ensures Alone(evs, r, id, |Exec(evs).starts|)
    ensures var s, t := Exec(evs), |Exec(evs).starts|;
            if l.container.Started? && l.peerKeyFound
            then Exec(r) == Stage(s.(containers := s.containers[Name(id) := t]), id,
                                  NewStart(id).(phase := Negotiated, container := true))
            else Exec(r) == AcquiredState(s, id, l)
  {
    var s, t := Exec(evs), |Exec(evs).starts|;
    r := UpToContainer(evs, id, l);
    if l.container.Started? {
      var s1, e := s.(containers := s.containers[Name(id) := t]), Negotiate(t, l.peerKeyFound);
      LastSteps(r, s1, id, NewStart(id).(phase := Contained, container := true), e);
      r := r + [e];
      if !l.peerKeyFound {
        assert ByStart(t, l) == {} && s.tasks + {} == s.tasks;
      }
    }
  }

  /** The last start once its configuration is written. */
  function ConfiguredState(s: State, id: string, l: Luck): State {
    var t, n := |s.starts|, Name(id);
    var relay: set<(nat, Task)> := if l.viaRelay then {(t, RelayClient)} else {};
    Stage(s.(containers := s.containers[n := t], tasks := s.tasks + relay, configs := s.configs[n := t]), id,
          NewStart(id).(phase := Configured, container := true, conf := true, cancels := relay))
  }

  lemma UpToConfig(evs: seq<Event>, s: State, id: string, l: Luck) returns (r: seq<Event>)
    requires l.container.Started? && l.peerKeyFound
    requires Exec(evs) == Stage(s.(containers := s.containers[Name(id) := |s.starts|]), id,
                                NewStart(id).(phase := Negotiated, container := true))
    ensures Alone(evs, r, id, |s.starts|)
    ensures Exec(r) == if l.configWritten then ConfiguredState(s, id, l) else AcquiredState(s, id, l)
  {
    var t := |s.starts|;
    var e1, e2 := Link(t, l.viaRelay), WriteConfig(t, l.configWritten, l.fileMade);
    var x := NewStart(id).(phase := Negotiated, container := true);
    var s1 := s.(containers := s.containers[Name(id) := t]);
    LastSteps(evs, s1, id, x, e1);
    var s2 := s1.(tasks := TasksAfter(s.tasks, x, t, e1));
    LastSteps(evs + [e1], s2, id, StartAfter(x, t, e1, false), e2);
    r := evs + [e1] + [e2];
    var relay: set<(nat, Task)> := if l.viaRelay then {(t, RelayClient)} else {};
    assert {} + relay == relay && s.tasks + {} == s.tasks;
    assert !l.configWritten ==> ByStart(t, l) == relay;
  }

  lemma UpToProxy(evs: seq<Event>, s: State, id: string, l: Luck) returns (r: seq<Event>)
    requires l.container.Started? && l.peerKeyFound && l.configWritten && (l.tunnel.Refused? || Name(id) !in s.tunnels)
    requires Exec(evs) == ConfiguredState(s, id, l)
    ensures Alone(evs, r, id, |s.starts|)
    ensures Exec(r) == AcquiredState(s, id, l)
  {
    var t, n := |s.starts|, Name(id);
    var relay: set<(nat, Task)> := if l.viaRelay then {(t, RelayClient)} else {};
    var s1 := s.(containers := s.containers[n := t], tasks := s.tasks + relay, configs := s.configs[n := t]);
    var x := NewStart(id).(phase := Configured, container := true, conf := true, cancels := relay);
    var e1 := BringUp(t, l.tunnel);
    LastSteps(evs, s1, id, x, e1);
    r := evs + [e1];
    if l.tunnel.Up? {
      var s2 := s1.(tunnels := s.tunnels[n := t]);
      ProxyStep(r, s2, id, x.(phase := Raised));
      r := r + [StartProxy(t)];
      assert relay + {(t, SSHProxy)} == ByStart(t, l);
      assert s.tasks + relay + {(t, SSHProxy)} == s.tasks + ByStart(t, l);
    } else {
      assert ByStart(t, l) == relay;
    }
  }

  lemma ProxyStep(evs: seq<Event>, s: State, id: string, x: Start)
    requires Exec(evs) == Stage(s, id, x) && x.id == id && x.phase.Raised?
    ensures var t := |s.starts|;
            Exec(evs + [StartProxy(t)]) == Stage(s.(tasks := s.tasks + {(t, SSHProxy)}), id,
                                                 x.(phase := Phase.Running, cancels := x.cancels + {(t, SSHProxy)}))
  {
    var t := |s.starts|;
    Extend(evs, StartProxy(t));
    Replaced(s.starts, x, x.(phase := Phase.Running));
    Replaced(s.starts, x.(phase := Phase.Running), x.(phase := Phase.Running, cancels := x.cancels + {(t, SSHProxy)}));
  }

  lemma AcquiresAlone(evs: seq<Event>, id: string, l: Luck) returns (r: seq<Event>)
    requires id !in Exec(evs).sessions && (l.tunnel.Refused? || Name(id) !in Exec(evs).tunnels)
    ensures Alone(evs, r, id, |Exec(evs).starts|)
    ensures Exec(r) == AcquiredState(Exec(evs), id, l)
  {
    r := UpToNegotiation(evs, id, l);
    if l.container.Started? && l.peerKeyFound {
      var r1 := UpToConfig(r, Exec(evs), id, l);
      if l.configWritten {
        r1 := UpToProxy(r1, Exec(evs), id, l);
      }
      r := r1;
    }
  }

  // ---- Undoing ----

  /** The record of start `t` shows what the class's record shows. */
  ghost predicate Shows(x: Start, t: nat, rs: RunningSession) {
    && (x.container <==> rs.containerID != "")
    && (x.conf <==> rs.wgConfPath != "")
    && (forall p :: p in x.cancels <==> p.0 == t && p.1 in rs.cancels)
  }

  function At(x: Start, byStop: bool, u: Undoing): Start {
    if byStop then x.(stop := u) else x.(own := u)
  }

  function LeftOf(x: Start, n: string, t: nat, undo: Undo, s: State): Left {
    var y := x.(left := LeftAfter(x, Stopping, undo.container, Owns(s.containers, n, t)));
    var z := y.(left := LeftAfter(y, TakingDown, undo.tunnel, Owns(s.tunnels, n, t)));
    LeftAfter(z, Removing, undo.config, Owns(s.configs, n, t))
  }

  /** The state when the undoing of start `t` is over. */
  function UndoneState(s: State, t: nat, byStop: bool, undo: Undo): State
    requires t < |s.starts|
  {
    var x, n := s.starts[t], NameOf(s, t);
    State(s.sessions, s.starts[t := At(x.(left := LeftOf(x, n, t, undo, s)), byStop, Done)],
          if x.container && undo.container && Owns(s.containers, n, t) then s.containers - {n} else s.containers,
          s.tasks - x.cancels,
          if undo.config then s.configs - {n} else s.configs,
          if x.conf && undo.tunnel then s.tunnels - {n} else s.tunnels)
  }

  /** The state when the goroutines are cancelled and the container is stopped. */
  function HalfUndone(s: State, t: nat, byStop: bool, undo: Undo): State
    requires t < |s.starts|
  {
    var x, n := s.starts[t], NameOf(s, t);
    var left := LeftAfter(x, Stopping, undo.container, Owns(s.containers, n, t));
    var removed := x.container && undo.container && Owns(s.containers, n, t);
    s.(starts := s.starts[t := At(x, byStop, TakingDown).(left := left)],
       containers := if removed then s.containers - {n} else s.containers,
       tasks := s.tasks - x.cancels)
  }

  lemma CancelsAndStops(evs: seq<Event>, t: nat, byStop: bool, undo: Undo) returns (r: seq<Event>)
    requires t < |Exec(evs).starts| && Thread(Exec(evs).starts[t], byStop).Cancelling?
    ensures evs <= r && |r| == |evs| + 2 && forall i :: |evs| <= i < |r| ==> r[i].Unwind? && r[i].t == t
    ensures Exec(r) == HalfUndone(Exec(evs), t, byStop, undo)
  {
    var e1, e2 := Unwind(t, byStop, true), Unwind(t, byStop, undo.container);
    Extend(evs, e1);
    Extend(evs + [e1], e2);
    r := evs + [e1] + [e2];
  }

  /** The state when the tunnel is taken down and the file is removed as well. */
  function OtherHalf(s: State, t: nat, byStop: bool, undo: Undo): State
    requires t < |s.starts|
  {
    var x, n := s.starts[t], NameOf(s, t);
    var y := x.(left := LeftAfter(x, TakingDown, undo.tunnel, Owns(s.tunnels, n, t)));
    var left := LeftAfter(y, Removing, undo.config, Owns(s.configs, n, t));
    s.(starts := s.starts[t := At(x, byStop, Done).(left := left)],
       configs := if undo.config then s.configs - {n} else s.configs,
       tunnels := if x.conf && undo.tunnel then s.tunnels - {n} else s.tunnels)
  }

  lemma TakesDownAndRemoves(evs: seq<Event>, t: nat, byStop: bool, undo: Undo) returns (r: seq<Event>)
    requires t < |Exec(evs).starts| && Thread(Exec(evs).starts[t], byStop).TakingDown?
    ensures evs <= r && |r| == |evs| + 2 && forall i :: |evs| <= i < |r| ==> r[i].Unwind? && r[i].t == t
    ensures Exec(r) == OtherHalf(Exec(evs), t, byStop, undo)
  {
    var e1, e2 := Unwind(t, byStop, undo.tunnel), Unwind(t, byStop, undo.config);
    Extend(evs, e1);
    Extend(evs + [e1], e2);
    r := evs + [e1] + [e2];
  }

  lemma UnwindsAlone(evs: seq<Event>, t: nat, byStop: bool, undo: Undo) returns (r: seq<Event>)
    requires t < |Exec(evs).starts| && Thread(Exec(evs).starts[t], byStop).Cancelling?
    ensures evs <= r && forall i :: |evs| <= i < |r| ==> r[i].Unwind? && r[i].t == t
    ensures Exec(r) == UndoneState(Exec(evs), t, byStop, undo)
  {
    var r1 := CancelsAndStops(evs, t, byStop, undo);
    r := TakesDownAndRemoves(r1, t, byStop, undo);
    TwoHalves(Exec(evs), t, byStop, undo);
  }

  lemma TwoHalves(s: State, t: nat, byStop: bool, undo: Undo)
    requires t < |s.starts|
    ensures var h := HalfUndone(s, t, byStop, undo);
            && NameOf(h, t) == NameOf(s, t)
            && UndoneState(s, t, byStop, undo) == OtherHalf(h, t, byStop, undo)
  {
  }

  /** Nothing under the start's name or session is another start's. */
  ghost predicate Apart(s: State, t: nat)
    requires t < |s.starts|
  {
    && (s.starts[t].container && NameOf(s, t) in s.containers ==> s.containers[NameOf(s, t)] == t)
    && (forall p :: p in s.tasks ==> p.0 < |s.starts| && (s.starts[p.0].id == s.starts[t].id ==> p.0 == t))
  }

  lemma HostUndone(s: State, t: nat, byStop: bool, undo: Undo, rs: RunningSession)
    requires t < |s.starts| && Apart(s, t) && Shows(s.starts[t], t, rs)
    ensures HostOf(UndoneState(s, t, byStop, undo)) == UndoneHost(HostOf(s), s.starts[t].id, rs, undo)
  {
    var r, id := UndoneState(s, t, byStop, undo), s.starts[t].id;
    var h := UndoneHost(HostOf(s), id, rs, undo);
    assert HostOf(r).containers == h.containers && HostOf(r).configs == h.configs && HostOf(r).tunnels == h.tunnels;
    TasksUndone(s, t, byStop, undo, rs);
  }

  lemma TasksUndone(s: State, t: nat, byStop: bool, undo: Undo, rs: RunningSession)
    requires t < |s.starts| && Apart(s, t) && Shows(s.starts[t], t, rs)
    ensures HostOf(UndoneState(s, t, byStop, undo)).tasks == UndoneHost(HostOf(s), s.starts[t].id, rs, undo).tasks
  {
    var r, id := UndoneState(s, t, byStop, undo), s.starts[t].id;
    assert r.tasks == s.tasks - s.starts[t].cancels && |r.starts| == |s.starts|;
    assert forall u :: 0 <= u < |s.starts| ==> r.starts[u].id == s.starts[u].id;
    TasksWithout(s, r, t, rs);
  }

  /** Without the goroutines a start's cancel function reaches, the host is without those of its session. */
  lemma TasksWithout(s: State, r: State, t: nat, rs: RunningSession)
    requires t < |s.starts| && Apart(s, t) && Shows(s.starts[t], t, rs)
    requires r.tasks == s.tasks - s.starts[t].cancels && |r.starts| == |s.starts|
    requires forall u :: 0 <= u < |s.starts| ==> r.starts[u].id == s.starts[u].id
    ensures HostOf(r).tasks == HostOf(s).tasks - (set k | k in rs.cancels :: (s.starts[t].id, k))
  {
    var gone := set k | k in rs.cancels :: (s.starts[t].id, k);
    forall q | q in HostOf(s).tasks - gone ensures q in HostOf(r).tasks {
      var p :| p in s.tasks && p.0 < |s.starts| && q == (s.starts[p.0].id, p.1);
      assert p !in s.starts[t].cancels;
      assert p in r.tasks && q == (r.starts[p.0].id, p.1);
    }
    TasksOnlyLeave(s, r, t, rs);
  }

  lemma TasksOnlyLeave(s: State, r: State, t: nat, rs: RunningSession)
    requires t < |s.starts| && Apart(s, t) && Shows(s.starts[t], t, rs)
    requires r.tasks == s.tasks - s.starts[t].cancels && |r.starts| == |s.starts|
    requires forall u :: 0 <= u < |s.starts| ==> r.starts[u].id == s.starts[u].id
    ensures HostOf(r).tasks <= HostOf(s).tasks
    ensures forall k :: k in rs.cancels ==> (s.starts[t].id, k) !in HostOf(r).tasks
  {
    forall q | q in HostOf(r).tasks ensures q in HostOf(s).tasks && !(q.0 == s.starts[t].id && q.1 in rs.cancels) {
      var p :| p in r.tasks && p.0 < |r.starts| && q == (r.starts[p.0].id, p.1);
      assert p in s.tasks && q == (s.starts[p.0].id, p.1);
    }
  }

  // ---- Whole calls ----

  lemma UndoesAlone(evs: seq<Event>, s: State, id: string, l: Luck, undo: Undo) returns (r: seq<Event>)
    requires Startable(s, id) && !Succeeds(l) && Exec(evs) == AcquiredState(s, id, l)
    ensures evs <= r && forall i :: |evs| <= i < |r| ==> r[i].Unwind? && r[i].t == |s.starts|
    ensures HostOf(Exec(r)) == UndoneHost(HostOf(Exec(evs)), id, Recorded(id, l), undo)
    ensures Exec(r).sessions == s.sessions
  {
    var t := |s.starts|;
    var e := Unwind(t, false, true);
    Extend(evs, e);
    GivenUp(s, id, l);
    r := UnwindsAlone(evs + [e], t, false, undo);
    HostUndone(Exec(evs + [e]), t, false, undo, Recorded(id, l));
  }

  /** A start that nothing interrupts does to the host and the reservations what the class's method does, whatever
      its foreign calls and its undo calls do. */
  lemma StartAlone(evs: seq<Event>, id: string, l: Luck, undo: Undo) returns (r: seq<Event>)
    requires Startable(Exec(evs), id) && (l.tunnel.Refused? || Name(id) !in Exec(evs).tunnels)
    ensures Alone(evs, r, id, |Exec(evs).starts|)
    ensures var s, t, h := Exec(evs), |Exec(evs).starts|, HostOf(Exec(evs));
            if Succeeds(l) then
              && HostOf(Exec(r)) == Acquired(h, id, l) && Exec(r).sessions == s.sessions[id := t]
              && |Exec(r).starts| == t + 1 && Shows(Exec(r).starts[t], t, Recorded(id, l))
            else
              && HostOf(Exec(r)) == UndoneHost(Acquired(h, id, l), id, Recorded(id, l), undo)
              && Exec(r).sessions == s.sessions
  {
    r := AcquiresAlone(evs, id, l);
    HostAcquired(Exec(evs), id, l);
    if !Succeeds(l) {
      var r1 := UndoesAlone(r, Exec(evs), id, l, undo);
      r := r1;
    }
  }

  /** A failed start that has given up its reservation. */
  lemma GivenUp(s: State, id: string, l: Luck)
    requires Startable(s, id) && !Succeeds(l)
    ensures var t, a := |s.starts|, AcquiredState(s, id, l);
            var r := Next(a, Unwind(t, false, true));
            && r == a.(sessions := s.sessions, starts := s.starts + [RecordAfter(t, id, l).(own := Cancelling)])
            && HostOf(r) == HostOf(a)
            && Apart(r, t) && Shows(r.starts[t], t, Recorded(id, l))
  {
    var t, a := |s.starts|, AcquiredState(s, id, l);
    var r := Next(a, Unwind(t, false, true));
    assert s.sessions[id := t] - {id} == s.sessions;
    Replaced(s.starts, RecordAfter(t, id, l), RecordAfter(t, id, l).(own := Cancelling));
    assert forall p :: p in a.tasks && p.0 < |a.starts| ==> a.starts[p.0].id == r.starts[p.0].id;
  }

  /** A stop of a running session that nothing interrupts does what the class's method does. */
  lemma StopAlone(evs: seq<Event>, t: nat, undo: Undo, rs: RunningSession) returns (r: seq<Event>)
    requires t < |Exec(evs).starts| && Owns(Exec(evs).sessions, Exec(evs).starts[t].id, t)
    requires Apart(Exec(evs), t) && Shows(Exec(evs).starts[t], t, rs)
    ensures evs <= r && forall i :: |evs| <= i < |r| ==> (r[i].Stop? || r[i].Unwind?) && r[i].t == t
    ensures HostOf(Exec(r)) == UndoneHost(HostOf(Exec(evs)), Exec(evs).starts[t].id, rs, undo)
    ensures Exec(r).sessions == Exec(evs).sessions - {Exec(evs).starts[t].id}
  {
    var s := Exec(evs);
    Extend(evs, Stop(t));
    var s1 := Exec(evs + [Stop(t)]);
    assert s1 == s.(sessions := s.sessions - {s.starts[t].id},
                    starts := s.starts[t := s.starts[t].(stop := Cancelling)]);
    assert HostOf(s1) == HostOf(s) by {
      assert forall p :: p in s.tasks && p.0 < |s.starts| ==> s1.starts[p.0].id == s.starts[p.0].id;
    }
    r := UnwindsAlone(evs + [Stop(t)], t, true, undo);
    HostUndone(s1, t, true, undo, rs);
  }
}
