/** Session starts and stops on the agent, interleaved step by step. */
module AgentRuns {
  import opened AgentDaemon

  /** How far a start has got in acquiring things. */
  datatype Phase = Reserved | Contained | Negotiated | Linked | Configured | Raised | Running | Failed

  /** How far undoing has got; the steps are in order. A stop gives up the reservation as it begins. */
  datatype Undoing = Idle | GivingUp | Cancelling | Stopping | TakingDown | Removing | Done

  /** `own` is the start's undoing of itself, `stop` that of a concurrent stop; both look at `container`, `conf` and
      `cancels`, the record they share. */
  datatype Start = Start(id: string, phase: Phase, own: Undoing, stop: Undoing,
                         container: bool, conf: bool, cancels: set<(nat, Task)>, left: Left)

  /** What stays of a start: a container whose ID was never recorded, or what an undo call was to remove, was there and
      was not removed because the call failed. */
  datatype Left = Left(container: bool, tunnel: bool, config: bool)

  const NONE_LEFT := Left(false, false, false)

  /** Which start holds the reservation of an ID, and which start made what is now known by a name. */
  datatype State = State(sessions: map<string, nat>, starts: seq<Start>, containers: map<string, nat>,
                         tasks: set<(nat, Task)>, configs: map<string, nat>, tunnels: map<string, nat>)

  datatype Event =
    | Begin(id: string)
    | StartContainer(t: nat, container: ContainerOutcome)
    | Negotiate(t: nat, peerKeyFound: bool)
    | Link(t: nat, viaRelay: bool)
    | WriteConfig(t: nat, written: bool, fileMade: bool)
    | BringUp(t: nat, tunnel: TunnelOutcome)
    | StartProxy(t: nat)
    | Stop(t: nat)
    | Unwind(t: nat, byStop: bool, ok: bool)

  const INIT := State(map[], [], map[], {}, map[], map[])

  function NameOf(s: State, t: nat): string
    requires t < |s.starts|
  {
    Name(s.starts[t].id)
  }

  predicate Owns(m: map<string, nat>, n: string, t: nat) {
    n in m && m[n] == t
  }

  predicate Active(u: Undoing) {
    !u.Idle? && !u.Done?
  }

  function Thread(x: Start, byStop: bool): Undoing {
    if byStop then x.stop else x.own
  }

  /** wg-quick makes an interface only where there is none. A session is stopped only while it is tracked. */
  predicate Enabled(s: State, e: Event) {
    if e.Begin? then e.id !in s.sessions else
    && e.t < |s.starts|
    && var x := s.starts[e.t];
    match e
    case StartContainer(_, _) => x.phase.Reserved?
    case Negotiate(_, _) => x.phase.Contained?
    case Link(_, _) => x.phase.Negotiated?
    case WriteConfig(_, _, _) => x.phase.Linked?
    case BringUp(t, o) => x.phase.Configured? && (o.Refused? || NameOf(s, t) !in s.tunnels)
    case StartProxy(_) => x.phase.Raised?
    case Stop(t) => Owns(s.sessions, x.id, t)
    case Unwind(_, byStop, _) => Active(Thread(x, byStop))
  }

  function NextUndo(u: Undoing): Undoing
    requires Active(u)
  {
    match u
    case GivingUp => Cancelling
    case Cancelling => Stopping
    case Stopping => TakingDown
    case TakingDown => Removing
    case Removing => Done
  }

  /** What is left after one more undo step; `there` says that what the step is to remove exists and is the start's. */
  function LeftAfter(x: Start, u: Undoing, ok: bool, there: bool): Left {
    match u
    case Stopping => if x.container then x.left.(container := !ok && (x.left.container || there)) else x.left
    case TakingDown => if x.conf then x.left.(tunnel := !ok && (x.left.tunnel || there)) else x.left
    case Removing => x.left.(config := !ok && (x.left.config || there))
    case _ => x.left
  }

  function Advanced(x: Start, ok: bool, next: Phase): (r: Start)
    ensures r == x.(phase := r.phase, own := r.own)
  {
    if ok then x.(phase := next) else x.(phase := Phase.Failed, own := GivingUp)
  }

  /** What a step of a start, or of its stop, does to its record. */
  function StartAfter(x: Start, t: nat, e: Event, there: bool): (r: Start)
    requires e.Unwind? ==> Active(Thread(x, e.byStop))
    ensures r.id == x.id
  {
    match e
    case Begin(_) => x
    case StartContainer(_, o) =>
      var left := x.left.(container := x.left.container || o.LeftBehind?);
      Advanced(x.(container := x.container || o.Started?, left := left), o.Started?, Contained)
    case Negotiate(_, ok) => Advanced(x, ok, Negotiated)
    case Link(_, viaRelay) => x.(phase := Linked, cancels := if viaRelay then {(t, RelayClient)} else x.cancels)
    case WriteConfig(_, ok, _) => Advanced(x.(conf := x.conf || ok), ok, Configured)
    case BringUp(_, o) => Advanced(x, o.Up?, Raised)
    case StartProxy(_) => x.(phase := Phase.Running)
    case Stop(_) => x.(stop := Cancelling)
    case Unwind(_, byStop, ok) =>
      var next := NextUndo(Thread(x, byStop));
      x.(own := if byStop then x.own else next, stop := if byStop then next else x.stop,
         left := LeftAfter(x, Thread(x, byStop), ok, there))
  }

  /** What an undo step is to remove exists and was made by the start it belongs to. */
  predicate There(s: State, e: Event)
    requires !e.Begin? && Enabled(s, e)
  {
    && e.Unwind?
    && match Thread(s.starts[e.t], e.byStop)
       case Stopping => Owns(s.containers, NameOf(s, e.t), e.t)
       case TakingDown => Owns(s.tunnels, NameOf(s, e.t), e.t)
       case Removing => Owns(s.configs, NameOf(s, e.t), e.t)
       case _ => false
  }

  /** The proxy's cancel function is stored in whatever record the table holds for the session at that moment. */
  function StartsAfter(s: State, e: Event): (r: seq<Start>)
    requires !e.Begin? && Enabled(s, e)
    ensures |r| == |s.starts|
  {
    var starts := s.starts[e.t := StartAfter(s.starts[e.t], e.t, e, There(s, e))];
    var id := s.starts[e.t].id;
    if e.StartProxy? && id in s.sessions && s.sessions[id] < |starts| then
      var u := s.sessions[id];
      starts[u := starts[u].(cancels := starts[u].cancels + {(e.t, SSHProxy)})]
    else starts
  }

  /** The reservation goes first, before anything else is undone, and goes by the session's ID. */
  function SessionsAfter(m: map<string, nat>, x: Start, e: Event): map<string, nat> {
    if e.Stop? || (e.Unwind? && Thread(x, e.byStop).GivingUp?) then m - {x.id} else m
  }

  /** A start removes any container of its name; an undo removes its own container, by its ID. */
  function ContainersAfter(m: map<string, nat>, x: Start, t: nat, e: Event): map<string, nat> {
    var n := Name(x.id);
    if e.StartContainer? then
      match e.container {
        case Untouched => m
        case NotCreated => m - {n}
        case LeftBehind => m[n := t]
        case Started => m[n := t]
      }
    else if e.Unwind? && Thread(x, e.byStop).Stopping? && x.container && e.ok && Owns(m, n, t) then m - {n}
    else m
  }

  function TasksAfter(m: set<(nat, Task)>, x: Start, t: nat, e: Event): set<(nat, Task)> {
    if e.Link? && e.viaRelay then m + {(t, RelayClient)}
    else if e.StartProxy? then m + {(t, SSHProxy)}
    else if e.Unwind? && Thread(x, e.byStop).Cancelling? then m - x.cancels
    else m
  }

  /** The file is written, and removed, by name. */
  function ConfigsAfter(m: map<string, nat>, x: Start, t: nat, e: Event): map<string, nat> {
    if e.WriteConfig? && (e.written || e.fileMade) then m[Name(x.id) := t]
    else if e.Unwind? && Thread(x, e.byStop).Removing? && e.ok then m - {Name(x.id)}
    else m
  }

  /** The interface is taken down by name. */
  function TunnelsAfter(m: map<string, nat>, x: Start, t: nat, e: Event): map<string, nat> {
    if e.BringUp? && !e.tunnel.Refused? then m[Name(x.id) := t]
    else if e.Unwind? && Thread(x, e.byStop).TakingDown? && x.conf && e.ok then m - {Name(x.id)}
    else m
  }

  function NewStart(id: string): Start {
    Start(id, Reserved, Idle, Idle, false, false, {}, NONE_LEFT)
  }

  function Next(s: State, e: Event): State {
    if !Enabled(s, e) then s
    else if e.Begin? then
      s.(sessions := s.sessions[e.id := |s.starts|], starts := s.starts + [NewStart(e.id)])
    else
      var x := s.starts[e.t];
      State(SessionsAfter(s.sessions, x, e), StartsAfter(s, e), ContainersAfter(s.containers, x, e.t, e),
            TasksAfter(s.tasks, x, e.t, e), ConfigsAfter(s.configs, x, e.t, e), TunnelsAfter(s.tunnels, x, e.t, e))
  }

  /** The state after a run; a step that is not enabled changes nothing. */
  function Exec(evs: seq<Event>): State {
    if evs == [] then INIT else Next(Exec(evs[..|evs| - 1]), evs[|evs| - 1])
  }

  lemma Extend(evs: seq<Event>, e: Event)
    ensures Exec(evs + [e]) == Next(Exec(evs), e)
  {
    assert (evs + [e])[..|evs|] == evs;
  }

  /** A start's record but for its cancel function, which another start's proxy can be added to. */
  function Core(x: Start): Start {
    x.(cancels := {})
  }

  lemma StepFrame(s: State, e: Event)
    requires Enabled(s, e) && !e.Begin?
    ensures |Next(s, e).starts| == |s.starts|
    ensures forall u :: 0 <= u < |s.starts| && u != e.t ==> Core(Next(s, e).starts[u]) == Core(s.starts[u])
    ensures Core(Next(s, e).starts[e.t]) == Core(StartAfter(s.starts[e.t], e.t, e, There(s, e)))
    ensures forall u :: 0 <= u < |s.starts| ==>
                          NameOf(Next(s, e), u) == NameOf(s, u) && Next(s, e).starts[u].id == s.starts[u].id
  {
  }

  /** `StepFrame` at one start. */
  lemma StepAt(s: State, e: Event, u: nat)
    requires Enabled(s, e) && !e.Begin? && u < |s.starts|
    ensures u < |Next(s, e).starts| && NameOf(Next(s, e), u) == NameOf(s, u)
    ensures Core(Next(s, e).starts[u]) ==
            Core(if u == e.t then StartAfter(s.starts[u], u, e, There(s, e)) else s.starts[u])
  {
  }

  // ---- Reservations ----

  /** A start that has not given up its reservation and has not been stopped. */
  predicate Holding(x: Start) {
    x.stop.Idle? && (x.own.Idle? || x.own.GivingUp?)
  }

  /** The reservation table lists only starts that hold, under their own IDs. */
  ghost predicate TableOk(s: State) {
    forall id :: id in s.sessions ==>
                   && s.sessions[id] < |s.starts|
                   && s.starts[s.sessions[id]].id == id
                   && Holding(s.starts[s.sessions[id]])
  }

  /** Every start that holds is in the table. */
  ghost predicate Listed(s: State) {
    forall t :: 0 <= t < |s.starts| && Holding(s.starts[t]) ==> Owns(s.sessions, s.starts[t].id, t)
  }

  /** A failing start gives up a reservation that another start of the session holds. */
  predicate Steals(s: State, e: Event) {
    && e.Unwind? && Enabled(s, e) && Thread(s.starts[e.t], e.byStop).GivingUp?
    && s.starts[e.t].id in s.sessions && s.sessions[s.starts[e.t].id] != e.t
  }

  // A start at these phases has not made the thing yet.

  predicate BeforeLink(p: Phase) {
    p.Reserved? || p.Contained? || p.Negotiated?
  }

  predicate BeforeConfig(p: Phase) {
    BeforeLink(p) || p.Linked?
  }

  predicate BeforeTunnel(p: Phase) {
    BeforeConfig(p) || p.Configured?
  }

  /** A start undoes itself only once it has failed, and only that undoing has the step that gives up the
      reservation; a start at its configuration has recorded the path of the file, its proxy comes last, and it leaves
      nothing before it has made it. */
  predicate Sane(x: Start, t: nat) {
    && !x.stop.GivingUp?
    && (x.own.Idle? <==> !x.phase.Failed?)
    && (x.phase.Configured? ==> x.conf)
    && ((t, SSHProxy) in x.cancels ==> x.phase.Running?)
    && (x.left.container ==> !x.phase.Reserved?)
    && (x.left.config ==> !BeforeConfig(x.phase))
    && (x.left.tunnel ==> !BeforeTunnel(x.phase))
  }

  ghost predicate AllSane(s: State) {
    forall t :: 0 <= t < |s.starts| ==> Sane(s.starts[t], t)
  }

  // Whatever exists was made by a start of that name that has got so far.

  ghost predicate ContainersMade(s: State) {
    forall n :: n in s.containers ==>
                  && s.containers[n] < |s.starts|
                  && NameOf(s, s.containers[n]) == n
                  && !s.starts[s.containers[n]].phase.Reserved?
  }

  ghost predicate ConfigsMade(s: State) {
    forall n :: n in s.configs ==>
                  && s.configs[n] < |s.starts|
                  && NameOf(s, s.configs[n]) == n
                  && !BeforeConfig(s.starts[s.configs[n]].phase)
  }

  ghost predicate TunnelsMade(s: State) {
    forall n :: n in s.tunnels ==>
                  && s.tunnels[n] < |s.starts|
                  && NameOf(s, s.tunnels[n]) == n
                  && !BeforeTunnel(s.starts[s.tunnels[n]].phase)
  }

  ghost predicate TasksMade(s: State) {
    forall p :: p in s.tasks ==> p.0 < |s.starts| && !BeforeLink(s.starts[p.0].phase)
  }

  ghost predicate Made(s: State) {
    ContainersMade(s) && ConfigsMade(s) && TunnelsMade(s) && TasksMade(s)
  }

  /** Phases only go on. */
  lemma PhaseAfter(s: State, e: Event, u: nat)
    requires Enabled(s, e) && !e.Begin? && u < |s.starts|
    ensures u < |Next(s, e).starts| && NameOf(Next(s, e), u) == NameOf(s, u)
    ensures var p, q := s.starts[u].phase, Next(s, e).starts[u].phase;
            && (!p.Reserved? ==> !q.Reserved?)
            && (!BeforeLink(p) ==> !BeforeLink(q))
            && (!BeforeConfig(p) ==> !BeforeConfig(q))
            && (!BeforeTunnel(p) ==> !BeforeTunnel(q))
  {
    StepAt(s, e, u);
    assert Next(s, e).starts[u].phase == Core(Next(s, e).starts[u]).phase;
  }

  lemma ContainersMadeStep(s: State, e: Event)
    requires ContainersMade(s) && Enabled(s, e) && !e.Begin?
    ensures ContainersMade(Next(s, e))
  {
    var r := Next(s, e);
    forall n | n in r.containers
      ensures r.containers[n] < |r.starts| && NameOf(r, r.containers[n]) == n
      ensures !r.starts[r.containers[n]].phase.Reserved?
    {
      StepAt(s, e, r.containers[n]);
      PhaseAfter(s, e, r.containers[n]);
      assert r.starts[r.containers[n]].phase == Core(r.starts[r.containers[n]]).phase;
    }
  }

  lemma ConfigsMadeStep(s: State, e: Event)
    requires ConfigsMade(s) && Enabled(s, e) && !e.Begin?
    ensures ConfigsMade(Next(s, e))
  {
    var r := Next(s, e);
    forall n | n in r.configs
      ensures r.configs[n] < |r.starts| && NameOf(r, r.configs[n]) == n
      ensures !BeforeConfig(r.starts[r.configs[n]].phase)
    {
      StepAt(s, e, r.configs[n]);
      PhaseAfter(s, e, r.configs[n]);
      assert r.starts[r.configs[n]].phase == Core(r.starts[r.configs[n]]).phase;
    }
  }

  lemma TunnelsMadeStep(s: State, e: Event)
    requires TunnelsMade(s) && Enabled(s, e) && !e.Begin?
    ensures TunnelsMade(Next(s, e))
  {
    var r := Next(s, e);
    forall n | n in r.tunnels
      ensures r.tunnels[n] < |r.starts| && NameOf(r, r.tunnels[n]) == n
      ensures !BeforeTunnel(r.starts[r.tunnels[n]].phase)
    {
      StepAt(s, e, r.tunnels[n]);
      PhaseAfter(s, e, r.tunnels[n]);
      assert r.starts[r.tunnels[n]].phase == Core(r.starts[r.tunnels[n]]).phase;
    }
  }

  lemma TasksMadeStep(s: State, e: Event)
    requires TasksMade(s) && Enabled(s, e) && !e.Begin?
    ensures TasksMade(Next(s, e))
  {
    var r := Next(s, e);
    forall p | p in r.tasks ensures p.0 < |r.starts| && !BeforeLink(r.starts[p.0].phase) {
      StepAt(s, e, p.0);
      PhaseAfter(s, e, p.0);
      assert r.starts[p.0].phase == Core(r.starts[p.0]).phase;
    }
  }

  lemma MadeStep(s: State, e: Event)
    requires Made(s)
    ensures Made(Next(s, e))
  {
    if Enabled(s, e) && !e.Begin? {
      ContainersMadeStep(s, e);
      ConfigsMadeStep(s, e);
      TunnelsMadeStep(s, e);
      TasksMadeStep(s, e);
    }
  }

  lemma SaneStep(s: State, e: Event)
    requires AllSane(s) && Made(s)
    ensures AllSane(Next(s, e))
  {
    if Enabled(s, e) && !e.Begin? {
      StepFrame(s, e);
      forall u | 0 <= u < |s.starts| ensures Sane(Next(s, e).starts[u], u) {
        assert Sane(s.starts[u], u);
        if u == e.t {
          SaneAfter(s, e);
        }
        assert Sane(Core(Next(s, e).starts[u]), u);
        CancelsFrame(s, e, u);
      }
    }
  }

  lemma SaneAfter(s: State, e: Event)
    requires Made(s) && Enabled(s, e) && !e.Begin? && Sane(s.starts[e.t], e.t)
    ensures Sane(Core(StartAfter(s.starts[e.t], e.t, e, There(s, e))), e.t)
  {
  }

  /** A relay client's cancel function replaces the stored one; a proxy's is added to the one stored under the session.
      */
  lemma CancelsFrame(s: State, e: Event, u: nat)
    requires Enabled(s, e) && !e.Begin? && u < |s.starts|
    ensures var was, now := s.starts[u].cancels, Next(s, e).starts[u].cancels;
            if e.Link? && e.viaRelay && u == e.t then now == {(u, RelayClient)}
            else now == was + if e.StartProxy? && Owns(s.sessions, s.starts[e.t].id, u) then {(e.t, SSHProxy)} else {}
  {
  }

  lemma TableStep(s: State, e: Event)
    requires TableOk(s)
    ensures TableOk(Next(s, e))
  {
    if Enabled(s, e) && !e.Begin? {
      StepFrame(s, e);
    }
  }

  /** A step keeps every holding start in the table exactly when it does not take another's reservation. */
  lemma ListedStepIff(s: State, e: Event)
    requires TableOk(s) && Listed(s) && AllSane(s)
    ensures Listed(Next(s, e)) <==> !Steals(s, e)
  {
    if Enabled(s, e) && !e.Begin? {
      StepFrame(s, e);
      var x := s.starts[e.t];
      if Steals(s, e) {
        var u := s.sessions[x.id];
        assert Holding(Core(Next(s, e).starts[u])) && !Owns(Next(s, e).sessions, x.id, u);
      }
    }
  }

  // ---- Whatever exists ----

  predicate PastCancelling(u: Undoing) {
    u.Stopping? || u.TakingDown? || u.Removing? || u.Done?
  }

  predicate PastStopping(u: Undoing) {
    u.TakingDown? || u.Removing? || u.Done?
  }

  predicate PastTakingDown(u: Undoing) {
    u.Removing? || u.Done?
  }

  predicate MayContain(x: Start) {
    x.left.container || (x.container && !PastStopping(x.own) && !PastStopping(x.stop))
  }

  predicate MayRun(x: Start, p: (nat, Task)) {
    p in x.cancels && !PastCancelling(x.own) && !PastCancelling(x.stop)
  }

  predicate MayConfigure(x: Start) {
    x.left.config || (!x.own.Done? && !x.stop.Done?)
  }

  predicate MayTunnel(x: Start) {
    x.left.tunnel || (x.conf && !PastTakingDown(x.own) && !PastTakingDown(x.stop))
  }

  // Whatever exists was made by a start of that name whose record shows it and that has not yet been undone so far,
  // or could not be.

  ghost predicate ContainersOk(s: State) {
    forall n :: n in s.containers ==>
                  && s.containers[n] < |s.starts|
                  && NameOf(s, s.containers[n]) == n
                  && MayContain(s.starts[s.containers[n]])
  }

  ghost predicate TasksOk(s: State) {
    forall p :: p in s.tasks ==> p.0 < |s.starts| && MayRun(s.starts[p.0], p)
  }

  ghost predicate ConfigsOk(s: State) {
    forall n :: n in s.configs ==>
                  && s.configs[n] < |s.starts|
                  && NameOf(s, s.configs[n]) == n
                  && MayConfigure(s.starts[s.configs[n]])
  }

  ghost predicate TunnelsOk(s: State) {
    forall n :: n in s.tunnels ==>
                  && s.tunnels[n] < |s.starts|
                  && NameOf(s, s.tunnels[n]) == n
                  && MayTunnel(s.starts[s.tunnels[n]])
  }

  ghost predicate Accounted(s: State) {
    ContainersOk(s) && TasksOk(s) && ConfigsOk(s) && TunnelsOk(s)
  }

  // A start acquires something after a stop of it has gone past undoing that.

  predicate OutrunsContainer(s: State, e: Event) {
    && e.StartContainer? && Enabled(s, e) && e.container.Started?
    && PastStopping(s.starts[e.t].stop)
  }

  predicate OutrunsTask(s: State, e: Event) {
    || (e.Link? && Enabled(s, e) && e.viaRelay && PastCancelling(s.starts[e.t].stop))
    || (e.StartProxy? && Enabled(s, e) && !Owns(s.sessions, s.starts[e.t].id, e.t))
  }

  predicate OutrunsConfig(s: State, e: Event) {
    && e.WriteConfig? && Enabled(s, e) && (e.written || e.fileMade)
    && s.starts[e.t].stop.Done?
  }

  predicate OutrunsTunnel(s: State, e: Event) {
    && e.BringUp? && Enabled(s, e) && !e.tunnel.Refused?
    && PastTakingDown(s.starts[e.t].stop)
  }

  predicate Outruns(s: State, e: Event) {
    OutrunsContainer(s, e) || OutrunsTask(s, e) || OutrunsConfig(s, e) || OutrunsTunnel(s, e)
  }

  lemma ContainersStepIff(s: State, e: Event)
    requires ContainersOk(s) && AllSane(s) && Enabled(s, e)
    ensures ContainersOk(Next(s, e)) <==> !OutrunsContainer(s, e)
  {
    if !e.Begin? {
      StepFrame(s, e);
      if OutrunsContainer(s, e) {
        assert Next(s, e).containers[NameOf(s, e.t)] == e.t;
        assert !MayContain(Core(Next(s, e).starts[e.t]));
      } else {
        ContainersKept(s, e);
      }
    }
  }

  lemma ContainersKept(s: State, e: Event)
    requires ContainersOk(s) && AllSane(s) && Enabled(s, e) && !e.Begin? && !OutrunsContainer(s, e)
    ensures ContainersOk(Next(s, e))
  {
    var r := Next(s, e);
    forall n | n in r.containers
      ensures r.containers[n] < |r.starts| && NameOf(r, r.containers[n]) == n && MayContain(r.starts[r.containers[n]])
    {
      var u := r.containers[n];
      StepAt(s, e, u);
      if u == e.t {
        MayContainAfter(s.starts[u], u, e, There(s, e));
      }
    }
  }

  lemma MayContainAfter(x: Start, t: nat, e: Event, there: bool)
    requires e.Unwind? ==> Active(Thread(x, e.byStop))
    requires e.Unwind? && Thread(x, e.byStop).Stopping? && x.container ==> there && !e.ok
    ensures MayContain(x) ==> MayContain(StartAfter(x, t, e, there))
  {
  }

  lemma ConfigsStepIff(s: State, e: Event)
    requires ConfigsOk(s) && AllSane(s) && Enabled(s, e)
    ensures ConfigsOk(Next(s, e)) <==> !OutrunsConfig(s, e)
  {
    if !e.Begin? {
      StepFrame(s, e);
      if OutrunsConfig(s, e) {
        assert Next(s, e).configs[NameOf(s, e.t)] == e.t;
        assert !MayConfigure(Core(Next(s, e).starts[e.t]));
      } else {
        ConfigsKept(s, e);
      }
    }
  }

  lemma ConfigsKept(s: State, e: Event)
    requires ConfigsOk(s) && AllSane(s) && Enabled(s, e) && !e.Begin? && !OutrunsConfig(s, e)
    ensures ConfigsOk(Next(s, e))
  {
    var r := Next(s, e);
    forall n | n in r.configs
      ensures r.configs[n] < |r.starts| && NameOf(r, r.configs[n]) == n && MayConfigure(r.starts[r.configs[n]])
    {
      var u := r.configs[n];
      StepAt(s, e, u);
      if u == e.t {
        MayConfigureAfter(s.starts[u], u, e, There(s, e));
      }
    }
  }

  lemma MayConfigureAfter(x: Start, t: nat, e: Event, there: bool)
    requires e.Unwind? ==> Active(Thread(x, e.byStop))
    requires e.Unwind? && Thread(x, e.byStop).Removing? ==> there && !e.ok
    ensures MayConfigure(x) ==> MayConfigure(StartAfter(x, t, e, there))
  {
  }

  lemma TunnelsStepIff(s: State, e: Event)
    requires TunnelsOk(s) && AllSane(s) && Enabled(s, e)
    ensures TunnelsOk(Next(s, e)) <==> !OutrunsTunnel(s, e)
  {
    if !e.Begin? {
      StepFrame(s, e);
      if OutrunsTunnel(s, e) {
        assert Next(s, e).tunnels[NameOf(s, e.t)] == e.t;
        assert !MayTunnel(Core(Next(s, e).starts[e.t]));
      } else {
        TunnelsKept(s, e);
      }
    }
  }

  lemma TunnelsKept(s: State, e: Event)
    requires TunnelsOk(s) && AllSane(s) && Enabled(s, e) && !e.Begin? && !OutrunsTunnel(s, e)
    ensures TunnelsOk(Next(s, e))
  {
    var r := Next(s, e);
    forall n | n in r.tunnels
      ensures r.tunnels[n] < |r.starts| && NameOf(r, r.tunnels[n]) == n && MayTunnel(r.starts[r.tunnels[n]])
    {
      var u := r.tunnels[n];
      StepAt(s, e, u);
      if u == e.t {
        MayTunnelAfter(s.starts[u], u, e, There(s, e));
      }
    }
  }

  lemma MayTunnelAfter(x: Start, t: nat, e: Event, there: bool)
    requires e.Unwind? ==> Active(Thread(x, e.byStop))
    requires e.Unwind? && Thread(x, e.byStop).TakingDown? && x.conf ==> there && !e.ok
    ensures MayTunnel(x) ==> MayTunnel(StartAfter(x, t, e, there))
  {
  }

  lemma TasksStepIff(s: State, e: Event)
    requires TasksOk(s) && TableOk(s) && AllSane(s) && Made(s) && Enabled(s, e)
    ensures TasksOk(Next(s, e)) <==> !OutrunsTask(s, e)
  {
    if !e.Begin? {
      StepFrame(s, e);
      CancelsFrame(s, e, e.t);
      if OutrunsTask(s, e) {
        assert (e.t, if e.Link? then RelayClient else SSHProxy) in Next(s, e).tasks;
      } else {
        TasksKept(s, e);
      }
    }
  }

  lemma TasksKept(s: State, e: Event)
    requires TasksOk(s) && TableOk(s) && AllSane(s) && Made(s) && Enabled(s, e) && !e.Begin? && !OutrunsTask(s, e)
    ensures TasksOk(Next(s, e))
  {
    var r := Next(s, e);
    forall p | p in r.tasks
      ensures p.0 < |r.starts| && MayRun(r.starts[p.0], p)
    {
      StepAt(s, e, p.0);
      CancelsFrame(s, e, p.0);
      if p.0 == e.t && !e.Link? {
        MayRunAfter(s.starts[p.0], p.0, e, p, There(s, e));
      }
    }
  }

  lemma MayRunAfter(x: Start, t: nat, e: Event, p: (nat, Task), there: bool)
    requires e.Unwind? ==> Active(Thread(x, e.byStop)) && !Thread(x, e.byStop).Cancelling?
    requires !e.Link?
    ensures MayRun(x, p) ==> MayRun(StartAfter(x, t, e, there), p)
  {
  }

  /** A step keeps everything accounted for exactly when it does not outrun a stop. */
  lemma AccountedStepIff(s: State, e: Event)
    requires TableOk(s) && AllSane(s) && Made(s) && Accounted(s)
    ensures Accounted(Next(s, e)) <==> !Outruns(s, e)
  {
    if Enabled(s, e) {
      ContainersStepIff(s, e);
      TasksStepIff(s, e);
      ConfigsStepIff(s, e);
      TunnelsStepIff(s, e);
    }
  }
}
