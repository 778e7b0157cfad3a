/** When one start of a session on the agent touches what another start holds. */
module AgentInterference {
  import opened AgentDaemon
  import opened AgentRuns
  import opened AgentOutcomes
  import opened AgentAlone

  predicate Anothers(m: map<string, nat>, n: string, t: nat) {
    n in m && m[n] != t
  }

  predicate CancelsAnothers(s: State, x: Start, t: nat) {
    exists p :: p in x.cancels && p in s.tasks && p.0 != t
  }

  /** The step removes or replaces, by ID or by name or through a cancel function, something another start made. */
  predicate TakesAnothers(s: State, e: Event) {
    && !e.Begin?
    && Enabled(s, e)
    && var x := s.starts[e.t];
    var n := NameOf(s, e.t);
    match e
    case StartContainer(t, o) => !o.Untouched? && Anothers(s.containers, n, t)
    case WriteConfig(t, written, fileMade) => (written || fileMade) && Anothers(s.configs, n, t)
    case Unwind(t, byStop, ok) =>
      (match Thread(x, byStop)
       case GivingUp => Anothers(s.sessions, x.id, t)
       case Cancelling => CancelsAnothers(s, x, t)
       case TakingDown => x.conf && ok && Anothers(s.tunnels, n, t)
       case Removing => ok && Anothers(s.configs, n, t)
       case _ => false)
    case _ => false
  }

  ghost predicate Kept(s: State, e: Event, u: nat)
    requires u < |s.starts|
  {
    u < |Next(s, e).starts| && Held(Next(s, e), u) == Held(s, u)
  }

  /** No start but the one taking the step gains or loses anything. */
  ghost predicate LeavesOthers(s: State, e: Event) {
    forall u :: 0 <= u < |s.starts| && (e.Begin? || u != e.t) ==> Kept(s, e, u)
  }

  /** The start whose thing the step takes. */
  lemma Victim(s: State, e: Event) returns (u: nat)
    requires TableOk(s) && Made(s) && TakesAnothers(s, e)
    ensures u < |s.starts| && u != e.t && !Kept(s, e, u)
  {
    var x, n := s.starts[e.t], NameOf(s, e.t);
    if e.StartContainer? {
      u := s.containers[n];
      assert Owns(s.containers, n, u) && !Owns(Next(s, e).containers, n, u);
    } else if e.WriteConfig? || Thread(x, e.byStop).Removing? {
      u := s.configs[n];
      assert Owns(s.configs, n, u) && !Owns(Next(s, e).configs, n, u);
    } else if Thread(x, e.byStop).GivingUp? {
      u := s.sessions[x.id];
      assert Owns(s.sessions, x.id, u) && !Owns(Next(s, e).sessions, x.id, u);
    } else if Thread(x, e.byStop).TakingDown? {
      u := s.tunnels[n];
      assert Owns(s.tunnels, n, u) && !Owns(Next(s, e).tunnels, n, u);
    } else {
      var k;
      u, k := CancelledTask(s, e);
    }
    Lost(s, e, u);
  }

  lemma CancelledTask(s: State, e: Event) returns (u: nat, k: Task)
    requires Made(s) && e.Unwind? && Enabled(s, e) && Thread(s.starts[e.t], e.byStop).Cancelling?
    requires CancelsAnothers(s, s.starts[e.t], e.t)
    ensures u < |s.starts| && u != e.t && (u, k) in s.tasks && (u, k) !in Next(s, e).tasks
  {
    var p :| p in s.starts[e.t].cancels && p in s.tasks && p.0 != e.t;
    u, k := p.0, p.1;
    assert p == (u, k);
  }

  /** A start one of whose things is gone has not kept what it held. */
  lemma Lost(s: State, e: Event, u: nat)
    requires Enabled(s, e) && !e.Begin? && u < |s.starts|
    requires var r, id, n := Next(s, e), s.starts[u].id, NameOf(s, u);
             || (Owns(s.containers, n, u) && !Owns(r.containers, n, u))
             || (Owns(s.configs, n, u) && !Owns(r.configs, n, u))
             || (Owns(s.tunnels, n, u) && !Owns(r.tunnels, n, u))
             || (Owns(s.sessions, id, u) && !Owns(r.sessions, id, u))
             || (exists k :: (u, k) in s.tasks && (u, k) !in r.tasks)
    ensures !Kept(s, e, u)
  {
    StepAt(s, e, u);
    assert Next(s, e).starts[u].id == Core(Next(s, e).starts[u]).id;
    if k :| (u, k) in s.tasks && (u, k) !in Next(s, e).tasks {
      assert k == RelayClient || k == SSHProxy;
    }
  }

  lemma NamedKept(s: State, e: Event, u: nat)
    requires Made(s) && Enabled(s, e) && !e.Begin? && !TakesAnothers(s, e) && u < |s.starts| && u != e.t
    ensures Owns(Next(s, e).containers, NameOf(s, u), u) <==> Owns(s.containers, NameOf(s, u), u)
    ensures Owns(Next(s, e).configs, NameOf(s, u), u) <==> Owns(s.configs, NameOf(s, u), u)
    ensures Owns(Next(s, e).tunnels, NameOf(s, u), u) <==> Owns(s.tunnels, NameOf(s, u), u)
  {
  }

  lemma ReservationKept(s: State, e: Event, u: nat)
    requires Enabled(s, e) && !e.Begin? && !TakesAnothers(s, e) && u < |s.starts| && u != e.t
    ensures Owns(Next(s, e).sessions, s.starts[u].id, u) <==> Owns(s.sessions, s.starts[u].id, u)
  {
  }

  lemma TaskKept(s: State, e: Event, u: nat, k: Task)
    requires Enabled(s, e) && !e.Begin? && !TakesAnothers(s, e) && u < |s.starts| && u != e.t
    ensures (u, k) in Next(s, e).tasks <==> (u, k) in s.tasks
  {
    var x, p := s.starts[e.t], (u, k);
    assert Next(s, e).tasks == TasksAfter(s.tasks, x, e.t, e);
    if e.Unwind? && Thread(x, e.byStop).Cancelling? {
      assert !CancelsAnothers(s, x, e.t);
      assert p in x.cancels ==> p !in s.tasks;
    } else {
      assert p != (e.t, RelayClient) && p != (e.t, SSHProxy);
    }
  }

  lemma AllKept(s: State, e: Event, u: nat)
    requires Made(s) && Enabled(s, e) && !e.Begin? && !TakesAnothers(s, e) && u < |s.starts| && u != e.t
    ensures Kept(s, e, u)
  {
    StepFrame(s, e);
    NamedKept(s, e, u);
    ReservationKept(s, e, u);
    TaskKept(s, e, u, RelayClient);
    TaskKept(s, e, u, SSHProxy);
  }

  lemma DisabledLeavesOthers(s: State, e: Event)
    requires !Enabled(s, e)
    ensures LeavesOthers(s, e)
  {
    assert Next(s, e) == s;
  }

  lemma BeginLeavesOthers(s: State, e: Event)
    requires TableOk(s) && e.Begin? && Enabled(s, e)
    ensures LeavesOthers(s, e)
  {
    forall u | 0 <= u < |s.starts| ensures Kept(s, e, u) {
      assert Next(s, e).starts[u] == s.starts[u];
    }
  }

  /** Exactly when the thing known by the start's own name, ID or cancel function is another's does a step touch
      another's. */
  lemma TouchesOthersIff(s: State, e: Event)
    requires TableOk(s) && Made(s)
    ensures LeavesOthers(s, e) <==> !TakesAnothers(s, e)
  {
    if TakesAnothers(s, e) {
      var u := Victim(s, e);
    } else if Enabled(s, e) && !e.Begin? {
      forall u | 0 <= u < |s.starts| && u != e.t ensures Kept(s, e, u) {
        AllKept(s, e, u);
      }
    } else if Enabled(s, e) {
      BeginLeavesOthers(s, e);
    } else {
      DisabledLeavesOthers(s, e);
    }
  }

  // ---- Runs in which names are not shared ----

  /** Neither the start nor a stop of it has anything left to do. */
  predicate Over(x: Start) {
    (x.own.Done? || x.phase.Running?) && !Active(x.stop) && (x.phase.Running? ==> x.stop.Done?)
  }

  /** No start of this name is under way, and nothing of this name is left. */
  ghost predicate Clear(s: State, n: string) {
    && (forall t :: 0 <= t < |s.starts| && NameOf(s, t) == n ==> Over(s.starts[t]))
    && n !in s.containers && n !in s.configs && n !in s.tunnels
  }

  /** Every start of the run begins when its name is clear. */
  ghost predicate BeginsClear(evs: seq<Event>) {
    forall i :: 0 <= i < |evs| && evs[i].Begin? && Enabled(Exec(evs[..i]), evs[i]) ==>
                  Clear(Exec(evs[..i]), Name(evs[i].id))
  }

  predicate Mine(m: map<string, nat>, n: string, t: nat) {
    n in m ==> m[n] == t
  }

  /** A start under way shares its name with no other, nothing of that name is another's, and its cancel function
      reaches only its own goroutines. */
  ghost predicate SoleAt(s: State, t: nat)
    requires t < |s.starts|
  {
    var n := NameOf(s, t);
    && (forall u :: 0 <= u < |s.starts| && NameOf(s, u) == n && !Over(s.starts[u]) ==> u == t)
    && Mine(s.containers, n, t) && Mine(s.configs, n, t) && Mine(s.tunnels, n, t)
    && (forall p :: p in s.starts[t].cancels ==> p.0 == t)
  }

  ghost predicate Sole(s: State) {
    forall t :: 0 <= t < |s.starts| && !Over(s.starts[t]) ==> SoleAt(s, t)
  }

  /** Whoever takes a step is under way. */
  lemma ActsUnderWay(s: State, e: Event)
    requires TableOk(s) && AllSane(s) && Enabled(s, e) && !e.Begin?
    ensures !Over(s.starts[e.t])
  {
    assert Sane(s.starts[e.t], e.t);
  }

  lemma StaysOver(s: State, e: Event, u: nat)
    requires TableOk(s) && AllSane(s) && Enabled(s, e) && !e.Begin? && u < |s.starts| && Over(s.starts[u])
    ensures u < |Next(s, e).starts| && Over(Next(s, e).starts[u])
  {
    ActsUnderWay(s, e);
    StepAt(s, e, u);
    assert Over(Core(Next(s, e).starts[u]));
  }

  lemma SoleNameStep(s: State, e: Event, t: nat)
    requires TableOk(s) && AllSane(s) && Enabled(s, e) && !e.Begin? && t < |s.starts| && SoleAt(s, t)
    ensures var r := Next(s, e);
            forall u :: 0 <= u < |r.starts| && NameOf(r, u) == NameOf(s, t) && !Over(r.starts[u]) ==> u == t
  {
    StepFrame(s, e);
    forall u | 0 <= u < |s.starts| && NameOf(s, u) == NameOf(s, t) && !Over(Next(s, e).starts[u]) ensures u == t {
      if Over(s.starts[u]) {
        StaysOver(s, e, u);
      }
    }
  }

  lemma SoleMapsStep(s: State, e: Event, t: nat)
    requires TableOk(s) && AllSane(s) && Enabled(s, e) && !e.Begin? && t < |s.starts| && SoleAt(s, t)
    ensures var n, r := NameOf(s, t), Next(s, e);
            Mine(r.containers, n, t) && Mine(r.configs, n, t) && Mine(r.tunnels, n, t)
  {
    ActsUnderWay(s, e);
  }

  lemma SoleCancelsStep(s: State, e: Event, t: nat)
    requires TableOk(s) && AllSane(s) && Enabled(s, e) && !e.Begin? && t < |s.starts| && SoleAt(s, t)
    ensures t < |Next(s, e).starts| && forall p :: p in Next(s, e).starts[t].cancels ==> p.0 == t
  {
    ActsUnderWay(s, e);
    CancelsFrame(s, e, t);
  }

  lemma SoleStep(s: State, e: Event)
    requires TableOk(s) && AllSane(s) && Sole(s)
    requires e.Begin? && Enabled(s, e) ==> Clear(s, Name(e.id))
    ensures Sole(Next(s, e))
  {
    var r := Next(s, e);
    if Enabled(s, e) {
      forall t | 0 <= t < |r.starts| && !Over(r.starts[t]) ensures SoleAt(r, t) {
        if e.Begin? {
          SoleBegin(s, e, t);
        } else {
          StepFrame(s, e);
          if Over(s.starts[t]) {
            StaysOver(s, e, t);
          }
          SoleNameStep(s, e, t);
          SoleMapsStep(s, e, t);
          SoleCancelsStep(s, e, t);
        }
      }
    }
  }

  lemma SoleBegin(s: State, e: Event, t: nat)
    requires Sole(s) && e.Begin? && Enabled(s, e) && Clear(s, Name(e.id))
    requires t < |Next(s, e).starts| && !Over(Next(s, e).starts[t])
    ensures SoleAt(Next(s, e), t)
  {
    if t < |s.starts| {
      assert SoleAt(s, t) && NameOf(s, t) != Name(e.id);
    }
  }

  lemma ClearPrefix(evs: seq<Event>, k: nat)
    requires BeginsClear(evs) && k <= |evs|
    ensures BeginsClear(evs[..k])
  {
    assert forall i :: 0 <= i < k ==> evs[..k][..i] == evs[..i] && evs[..k][i] == evs[i];
  }

  lemma {:induction false} AlwaysSole(evs: seq<Event>)
    requires BeginsClear(evs)
    ensures Sole(Exec(evs))
  {
    if evs != [] {
      var k := |evs| - 1;
      ClearPrefix(evs, k);
      AlwaysSole(evs[..k]);
      AlwaysSane(evs[..k]);
      assert evs[k].Begin? && Enabled(Exec(evs[..k]), evs[k]) ==> Clear(Exec(evs[..k]), Name(evs[k].id));
      SoleStep(Exec(evs[..k]), evs[k]);
    }
  }

  lemma SoleTakesNothing(s: State, e: Event)
    requires TableOk(s) && AllSane(s) && Sole(s)
    ensures !TakesAnothers(s, e)
  {
    if Enabled(s, e) && !e.Begin? {
      ActsUnderWay(s, e);
      assert SoleAt(s, e.t);
      var x := s.starts[e.t];
      if x.id in s.sessions {
        assert !Over(s.starts[s.sessions[x.id]]);
      }
    }
  }

  /** In every run whose starts begin when their names are clear, stops at any moment included, no step of a start
      or a stop touches what another start holds. */
  lemma ClearRunsLeaveOthers(evs: seq<Event>, e: Event)
    requires BeginsClear(evs)
    ensures LeavesOthers(Exec(evs), e)
  {
    AlwaysSole(evs);
    AlwaysSane(evs);
    SoleTakesNothing(Exec(evs), e);
    TouchesOthersIff(Exec(evs), e);
  }

  /** What is left of a start is there and is its own. */
  ghost predicate LeftThere(s: State, t: nat)
    requires t < |s.starts|
  {
    var held, left := Held(s, t), s.starts[t].left;
    (left.container ==> held.container) && (left.config ==> held.config) && (left.tunnel ==> held.tunnel)
  }

  lemma OwnLeftThere(s: State, e: Event)
    requires AllSane(s) && Made(s) && Enabled(s, e) && !e.Begin? && LeftThere(s, e.t)
    ensures e.t < |Next(s, e).starts| && LeftThere(Next(s, e), e.t)
  {
    StepAt(s, e, e.t);
    assert Sane(s.starts[e.t], e.t);
    assert Next(s, e).starts[e.t].left == Core(Next(s, e).starts[e.t]).left;
    OwnContainerThere(s, e);
    OwnConfigThere(s, e);
    OwnTunnelThere(s, e);
  }

  lemma OwnContainerThere(s: State, e: Event)
    requires Enabled(s, e) && !e.Begin? && Sane(s.starts[e.t], e.t)
    requires s.starts[e.t].left.container ==> Owns(s.containers, NameOf(s, e.t), e.t)
    ensures StartAfter(s.starts[e.t], e.t, e, There(s, e)).left.container ==>
              Owns(Next(s, e).containers, NameOf(s, e.t), e.t)
  {
  }

  lemma OwnConfigThere(s: State, e: Event)
    requires Enabled(s, e) && !e.Begin? && Sane(s.starts[e.t], e.t)
    requires s.starts[e.t].left.config ==> Owns(s.configs, NameOf(s, e.t), e.t)
    ensures StartAfter(s.starts[e.t], e.t, e, There(s, e)).left.config ==> Owns(Next(s, e).configs, NameOf(s, e.t), e.t)
  {
  }

  lemma OwnTunnelThere(s: State, e: Event)
    requires Enabled(s, e) && !e.Begin? && Sane(s.starts[e.t], e.t)
    requires s.starts[e.t].left.tunnel ==> Owns(s.tunnels, NameOf(s, e.t), e.t)
    ensures StartAfter(s.starts[e.t], e.t, e, There(s, e)).left.tunnel ==> Owns(Next(s, e).tunnels, NameOf(s, e.t), e.t)
  {
  }

  lemma LeftThereStep(s: State, e: Event, t: nat)
    requires TableOk(s) && AllSane(s) && Made(s) && Sole(s) && t < |Next(s, e).starts|
    requires t < |s.starts| ==> LeftThere(s, t)
    ensures LeftThere(Next(s, e), t)
  {
    if Enabled(s, e) && t < |s.starts| {
      if !e.Begin? && t == e.t {
        OwnLeftThere(s, e);
      } else {
        SoleTakesNothing(s, e);
        TouchesOthersIff(s, e);
        assert Kept(s, e, t);
        if !e.Begin? {
          StepAt(s, e, t);
          assert Next(s, e).starts[t].left == Core(Next(s, e).starts[t]).left;
        }
      }
    }
  }

  lemma {:induction false} AlwaysLeftThere(evs: seq<Event>, t: nat)
    requires BeginsClear(evs) && t < |Exec(evs).starts|
    ensures LeftThere(Exec(evs), t)
  {
    var k := |evs| - 1;
    var s := Exec(evs[..k]);
    ClearPrefix(evs, k);
    AlwaysSole(evs[..k]);
    AlwaysSane(evs[..k]);
    if t < |s.starts| {
      AlwaysLeftThere(evs[..k], t);
    }
    LeftThereStep(s, evs[k], t);
  }

  /** In every run whose starts begin when their names are clear and that outruns no stop, a start that has been undone
      holds exactly what was left of it: a container whose ID was never recorded, and whatever an undo call failed to
      remove. */
  lemma EndedHoldsExactlyLeft(evs: seq<Event>, t: nat)
    requires BeginsClear(evs) && NeverOutruns(evs) && t < |Exec(evs).starts|
    requires Exec(evs).starts[t].own.Done? || Exec(evs).starts[t].stop.Done?
    ensures var left := Exec(evs).starts[t].left;
            Held(Exec(evs), t) == Holdings(false, left.container, false, false, left.config, left.tunnel)
  {
    EndedHoldsNothing(evs, t);
    AlwaysLeftThere(evs, t);
  }

  // ---- Interleavings that go wrong ----

  /** The last start, once its container is up. */
  function WithContainer(s: State, t: nat): State
    requires t < |s.starts|
  {
    s.(starts := s.starts[t := s.starts[t].(phase := Contained, container := true)],
       containers := s.containers[NameOf(s, t) := t])
  }

  lemma ContainerStarted(evs: seq<Event>, t: nat) returns (r: seq<Event>)
    requires t < |Exec(evs).starts| && Exec(evs).starts[t].phase.Reserved?
    ensures Exec(r) == WithContainer(Exec(evs), t)
  {
    r := evs + [StartContainer(t, Started)];
    Extend(evs, StartContainer(t, Started));
  }

  /** A reserved start whose foreign calls succeed up to bringing the tunnel up. */
  lemma AcquireUpToTunnel(evs: seq<Event>, t: nat) returns (r: seq<Event>)
    requires t < |Exec(evs).starts| && Exec(evs).starts[t].phase.Reserved?
    ensures var s, n := Exec(evs), NameOf(Exec(evs), t);
            Exec(r) == s.(starts := s.starts[t := s.starts[t].(phase := Configured, container := true, conf := true)],
                          containers := s.containers[n := t], configs := s.configs[n := t])
  {
    var s, x := Exec(evs), Exec(evs).starts[t];
    var r1 := ContainerStarted(evs, t);
    var r2 := r1 + [Negotiate(t, true)];
    Extend(r1, Negotiate(t, true));
    var r3 := r2 + [Link(t, false)];
    Extend(r2, Link(t, false));
    assert Exec(r3) == Exec(r1).(starts := s.starts[t := x.(phase := Linked, container := true)]);
    r := r3 + [WriteConfig(t, true, true)];
    Extend(r3, WriteConfig(t, true, true));
  }

  lemma GetRunning(evs: seq<Event>, t: nat) returns (r: seq<Event>)
    requires t < |Exec(evs).starts| && Exec(evs).starts[t].phase.Reserved? && NameOf(Exec(evs), t) !in Exec(evs).tunnels
    ensures var s, n := Exec(evs), NameOf(Exec(evs), t);
            && Exec(r).sessions == s.sessions
            && Exec(r).tasks == s.tasks + {(t, SSHProxy)}
            && Exec(r).containers == s.containers[n := t]
            && Exec(r).configs == s.configs[n := t]
            && Exec(r).tunnels == s.tunnels[n := t]
            && |Exec(r).starts| == |s.starts|
            && Core(Exec(r).starts[t]) == Core(s.starts[t].(phase := Phase.Running, container := true, conf := true))
            && (forall u :: 0 <= u < |s.starts| && u != t ==> Core(Exec(r).starts[u]) == Core(s.starts[u]))
            && (forall u :: 0 <= u < |s.starts| && !Owns(s.sessions, s.starts[t].id, u) ==>
                              Exec(r).starts[u].cancels == s.starts[u].cancels)
  {
    var r1 := AcquireUpToTunnel(evs, t);
    var r2 := r1 + [BringUp(t, Up)];
    Extend(r1, BringUp(t, Up));
    r := r2 + [StartProxy(t)];
    Extend(r2, StartProxy(t));
  }

  /** From any state in which a session can start, its first start can fail, a second start can get it running
      while the first is still undoing, and the first can then take the tunnel and the file of the second. */
  lemma RestartLosesTunnel(evs: seq<Event>, id: string) returns (r: seq<Event>)
    requires id !in Exec(evs).sessions && Name(id) !in Exec(evs).tunnels
    ensures var s, u := Exec(r), |Exec(evs).starts| + 1;
            && |s.starts| == u + 1 && s.starts[u].id == id && s.starts[u].phase.Running?
            && Held(s, u) == Holdings(true, true, false, true, false, false)
  {
    var t, l := |Exec(evs).starts|, Luck(Started, true, false, true, true, Up);
    var r1 := FailOnce(evs, id);
    AlwaysSane(r1);
    var r2 := AcquiresAlone(r1, id, l);
    r := UnwindsAlone(r2, t, false, Undo(true, true, true));
    HeldAfter(Exec(r1), id, l, t);
  }

  /** A start that fails to bring its tunnel up and has just given up its reservation. */
  lemma FailOnce(evs: seq<Event>, id: string) returns (r: seq<Event>)
    requires id !in Exec(evs).sessions
    ensures id !in Exec(r).sessions && |Exec(r).starts| == |Exec(evs).starts| + 1
    ensures Exec(r).tunnels == Exec(evs).tunnels
    ensures Exec(r).starts[|Exec(evs).starts|] ==
            NewStart(id).(phase := Phase.Failed, own := Cancelling, container := true, conf := true)
  {
    var t, l := |Exec(evs).starts|, Luck(Started, true, false, true, true, Refused);
    var r1 := AcquiresAlone(evs, id, l);
    assert ByStart(t, l) == {};
    Extend(r1, Unwind(t, false, true));
    r := r1 + [Unwind(t, false, true)];
  }

  /** What a start that got its session running holds once an earlier start of the session has undone itself. */
  lemma HeldAfter(s: State, id: string, l: Luck, t: nat)
    requires Made(s) && |s.starts| == t + 1 && s.starts[t].id == id && s.starts[t].conf && s.starts[t].cancels == {}
    requires Succeeds(l) && !l.viaRelay
    ensures var r := UndoneState(AcquiredState(s, id, l), t, false, Undo(true, true, true));
            && |r.starts| == t + 2 && r.starts[t + 1] == RecordAfter(t + 1, id, l)
            && Held(r, t + 1) == Holdings(true, true, false, true, false, false)
  {
    assert ByStart(t + 1, l) == {(t + 1, SSHProxy)};
  }

  /** From any state in which a session can start, a stop that comes before its container is up can finish first: the
      session then runs with all it acquired, and no later stop of it finds it. */
  lemma EarlyStopIsOutrun(evs: seq<Event>, id: string) returns (r: seq<Event>)
    requires id !in Exec(evs).sessions && Name(id) !in Exec(evs).tunnels
    ensures var s, t := Exec(r), |Exec(evs).starts|;
            && |s.starts| == t + 1 && s.starts[t].id == id && s.starts[t].phase.Running? && s.starts[t].stop.Done?
            && Held(s, t) == Holdings(false, true, false, true, true, true)
            && s.starts[t].left == NONE_LEFT && id !in s.sessions
  {
    var t := |Exec(evs).starts|;
    AlwaysSane(evs);
    var r0 := StoppedEarly(evs, id);
    var r1 := UnwindsAlone(r0, t, true, Undo(true, true, true));
    r := GetRunning(r1, t);
    assert Exec(r).starts[t] == Core(Exec(r).starts[t]).(cancels := Exec(r).starts[t].cancels);
  }

  /** From any state in which a session can start, a start that was stopped early and then fails can take the
      reservation of the next start, so that a third begins beside it. */
  lemma EarlyStopLosesReservation(evs: seq<Event>, id: string) returns (r: seq<Event>)
    requires id !in Exec(evs).sessions
    ensures var s, u := Exec(r), |Exec(evs).starts| + 1;
            && |s.starts| == u + 2 && s.starts[u].id == id && s.starts[u + 1].id == id
            && Holding(s.starts[u]) && Holding(s.starts[u + 1])
  {
    var t := |Exec(evs).starts|;
    var r1 := StoppedEarly(evs, id);
    Extend(r1, Begin(id));
    var r2 := r1 + [Begin(id)];
    Extend(r2, StartContainer(t, Untouched));
    var r3 := r2 + [StartContainer(t, Untouched)];
    assert Exec(r3).starts[t] == NewStart(id).(phase := Phase.Failed, own := GivingUp, stop := Cancelling);
    assert Exec(r3).starts[t + 1] == NewStart(id) && |Exec(r3).starts| == t + 2;
    Extend(r3, Unwind(t, false, true));
    var r4 := r3 + [Unwind(t, false, true)];
    assert Exec(r4).starts[t + 1] == NewStart(id) && id !in Exec(r4).sessions && |Exec(r4).starts| == t + 2;
    Extend(r4, Begin(id));
    r := r4 + [Begin(id)];
  }

  lemma StoppedEarly(evs: seq<Event>, id: string) returns (r: seq<Event>)
    requires id !in Exec(evs).sessions
    ensures Exec(r) == Exec(evs).(starts := Exec(evs).starts + [NewStart(id).(stop := Cancelling)])
  {
    var t := |Exec(evs).starts|;
    Extend(evs, Begin(id));
    Extend(evs + [Begin(id)], Stop(t));
    r := evs + [Begin(id)] + [Stop(t)];
  }
}
