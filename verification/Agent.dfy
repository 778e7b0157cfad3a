/** Starting and stopping sessions on the provider's agent, one call at a time. */
module AgentDaemon {
  import opened Heap

  /** Goroutines a tracked session can cancel. */
  datatype Task = RelayClient | SSHProxy

  /** What the host holds for sessions. Containers, configuration files and tunnel interfaces are known by
      the start of the session ID; goroutines belong to a session. */
  datatype Host = Host(containers: set<string>, configs: set<string>, tunnels: set<string>, tasks: set<(string, Task)>)

  /** `Untouched`: the network or the image failed. `NotCreated`: a container of that name was removed, none made.
      `LeftBehind`: one was made, but an error came back and its ID is not recorded. */
  datatype ContainerOutcome = Untouched | NotCreated | LeftBehind | Started

  /** `HalfUp`: wg-quick reported an error and left the interface. */
  datatype TunnelOutcome = Refused | HalfUp | Up

  /** How the foreign calls of one start turn out. `fileMade` is whether a failing `WriteConfig` made the file. */
  datatype Luck = Luck(container: ContainerOutcome, peerKeyFound: bool, viaRelay: bool,
                       configWritten: bool, fileMade: bool, tunnel: TunnelOutcome)

  /** Which of the best-effort calls that undo a start succeed. */
  datatype Undo = Undo(container: bool, tunnel: bool, config: bool)

  /** `cancels` is what the stored cancel function reaches; a nil function is the empty set. A container's name
      stands for its ID. */
  datatype RunningSession = RunningSession(containerID: string, cancels: set<Task>, wgConfPath: string)

  datatype StartResult = AlreadyTracked | Running | Failed

  /** The first twelve characters of a session ID, or all of them. */
  function Name(id: string): (n: string)
    ensures n <= id && (|n| == 12 || (n == id && |n| < 12))
  {
    if |id| <= 12 then id else id[..12]
  }

  predicate Succeeds(l: Luck) {
    l.container.Started? && l.peerKeyFound && l.configWritten && l.tunnel.Up?
  }

  /** `a` and `b` hold the same things under every name but `n`. */
  ghost predicate SameElsewhere(a: Host, b: Host, n: string) {
    && (forall m :: m != n ==> (m in a.containers <==> m in b.containers))
    && (forall m :: m != n ==> (m in a.configs <==> m in b.configs))
    && (forall m :: m != n ==> (m in a.tunnels <==> m in b.tunnels))
  }

  ghost predicate HoldsNothing(h: Host, n: string) {
    n !in h.containers && n !in h.configs && n !in h.tunnels
  }

  predicate MakesConfig(l: Luck) {
    l.container.Started? && l.peerKeyFound && (l.configWritten || l.fileMade)
  }

  predicate MakesTunnel(l: Luck) {
    l.container.Started? && l.peerKeyFound && l.configWritten && !l.tunnel.Refused?
  }

  class Daemon {
    var sessions: map<string, Ref<RunningSession>>
    var host: Host

    /** Every goroutine running for a session can be cancelled through its record, and no other runs. */
    ghost predicate Valid()
      reads this, sessions.Values
    {
      forall id, t :: (id, t) in host.tasks <==> id in sessions && t in sessions[id].v.cancels
    }

    constructor ()
      ensures Valid() && sessions == map[] && host == Host({}, {}, {}, {})
    {
      sessions := map[];
      host := Host({}, {}, {}, {});
    }

    /** A second start does nothing. A failed start leaves the table and the goroutines as they were, touches no
        other name, and under its own name leaves exactly what it made and its undo call did not remove. */
    method StartSession(id: string, luck: Luck, undo: Undo) returns (r: StartResult)
      requires Valid()
      modifies this
      ensures Valid()
      ensures r.AlreadyTracked? <==> id in old(sessions)
      ensures r.AlreadyTracked? ==> sessions == old(sessions) && host == old(host)
      ensures r.Running? <==> id !in old(sessions) && Succeeds(luck)
      ensures !r.AlreadyTracked? ==> SameElsewhere(host, old(host), Name(id))
      ensures r.Failed? ==> sessions == old(sessions) && host.tasks == old(host).tasks
      ensures r.Failed? ==> host == UndoneHost(Acquired(old(host), id, luck), id, Recorded(id, luck), undo)
      ensures r.Failed? && old(HoldsNothing(host, Name(id))) ==>
                && (Name(id) in host.containers <==>
                    luck.container.LeftBehind? || (luck.container.Started? && !undo.container))
                && (Name(id) in host.configs <==> MakesConfig(luck) && !undo.config)
                && (Name(id) in host.tunnels <==> MakesTunnel(luck) && !undo.tunnel)
      ensures r.Running? ==>
                && sessions.Keys == old(sessions).Keys + {id} && fresh(sessions[id])
                && (forall x :: x in old(sessions) ==> sessions[x] == old(sessions)[x])
                && sessions[id].v == Recorded(id, luck)
                && (forall p :: p in host.tasks <==>
                                  p in old(host).tasks || (p.0 == id && p.1 in sessions[id].v.cancels))
                && host == Acquired(old(host), id, luck)
                && Name(id) in host.containers && Name(id) in host.configs && Name(id) in host.tunnels
                && (id, SSHProxy) in host.tasks && ((id, RelayClient) in host.tasks <==> luck.viaRelay)
                && sessions[id].v.containerID == "pc-" + Name(id)
                && sessions[id].v.wgConfPath == "pc-" + Name(id) + ".conf"
    {
      if id in sessions {
        return AlreadyTracked;
      }
      var rs := new Ref(RunningSession("", {}, ""));
      sessions := sessions[id := rs];
      var ok := Acquire(id, rs, luck);
      if !ok {
        UndoStart(id, rs, undo);
        return Failed;
      }
      r := Running;
    }

    /** The foreign calls of a start up to the first that fails; `rs` records what an undo has to look at. */
    method Acquire(id: string, rs: Ref<RunningSession>, luck: Luck) returns (ok: bool)
      requires rs.v == RunningSession("", {}, "")
      modifies this`host, rs
      ensures ok <==> Succeeds(luck)
      ensures rs.v == Recorded(id, luck)
      ensures host == Acquired(old(host), id, luck)
    {
      var name := Name(id);
      host := host.(containers := AfterStart(host.containers, name, luck.container));
      if !luck.container.Started? {
        return false;
      }
      rs.v := rs.v.(containerID := "pc-" + name);
      if !luck.peerKeyFound {
        return false;
      }
      if luck.viaRelay {
        host := host.(tasks := host.tasks + {(id, RelayClient)});
        rs.v := rs.v.(cancels := {RelayClient});
      }
      if luck.configWritten || luck.fileMade {
        host := host.(configs := host.configs + {name});
      }
      if !luck.configWritten {
        return false;
      }
      rs.v := rs.v.(wgConfPath := "pc-" + name + ".conf");
      if !luck.tunnel.Refused? {
        host := host.(tunnels := host.tunnels + {name});
      }
      if !luck.tunnel.Up? {
        return false;
      }
      rs.v := rs.v.(cancels := rs.v.cancels + {SSHProxy});
      host := host.(tasks := host.tasks + {(id, SSHProxy)});
      return true;
    }

    /** The steps shared by a failed start and a stop: forget the session, then cancel, stop, take down, remove. */
    method UndoStart(id: string, rs: Ref<RunningSession>, undo: Undo)
      modifies this
      ensures sessions == old(sessions) - {id}
      ensures host == UndoneHost(old(host), id, rs.v, undo)
    {
      sessions := sessions - {id};
      var cancelled := set t | t in rs.v.cancels :: (id, t);
      host := host.(tasks := host.tasks - cancelled);
      if rs.v.containerID != "" && undo.container {
        host := host.(containers := host.containers - {Name(id)});
      }
      if rs.v.wgConfPath != "" && undo.tunnel {
        host := host.(tunnels := host.tunnels - {Name(id)});
      }
      if undo.config {
        host := host.(configs := host.configs - {Name(id)});
      }
    }

    /** A stop forgets the session and its goroutines, touches no other name, and gives back every named thing
        the session recorded whose undo call succeeds. */
    method StopSession(id: string, undo: Undo)
      requires Valid()
      modifies this
      ensures Valid()
      ensures id !in old(sessions) ==> sessions == old(sessions) && host == old(host)
      ensures id in old(sessions) ==>
                && sessions == old(sessions) - {id}
                && host.tasks == (set p | p in old(host).tasks && p.0 != id)
                && SameElsewhere(host, old(host), Name(id))
                && host == UndoneHost(old(host), id, old(sessions[id].v), undo)
    {
      if id in sessions {
        UndoStart(id, sessions[id], undo);
      }
    }

    /** Starting and then stopping, with every undo call succeeding, is as if nothing had happened, whatever the
        foreign calls of the start did, unless a container was left behind. */
    method StartThenStop(id: string, luck: Luck) returns (r: StartResult)
      requires Valid() && id !in sessions && HoldsNothing(host, Name(id))
      modifies this
      ensures Valid() && sessions == old(sessions)
      ensures host == old(host).(
                containers := old(host).containers + if luck.container.LeftBehind? then {Name(id)} else {})
    {
      var all := Undo(true, true, true);
      r := StartSession(id, luck, all);
      StopSession(id, all);
      assert host.tasks == old(host).tasks;
      assert host.configs == old(host).configs;
      assert host.tunnels == old(host).tunnels;
    }
  }

  /** Names of containers after `StartContainer`, which first removes one of the same name. */
  function AfterStart(containers: set<string>, name: string, outcome: ContainerOutcome): (r: set<string>)
    ensures name in r <==> outcome.LeftBehind? || outcome.Started? || (outcome.Untouched? && name in containers)
    ensures forall m :: m != name ==> (m in r <==> m in containers)
  {
    match outcome
    case Untouched => containers
    case NotCreated => containers - {name}
    case LeftBehind => containers + {name}
    case Started => containers + {name}
  }

  /** The goroutines a start has begun when it ends. */
  function Begun(l: Luck): set<Task> {
    (if l.container.Started? && l.peerKeyFound && l.viaRelay then {RelayClient} else {})
    + if Succeeds(l) then {SSHProxy} else {}
  }

  /** What the record of a session shows of a start when it ends. */
  function Recorded(id: string, l: Luck): RunningSession {
    RunningSession(if l.container.Started? then "pc-" + Name(id) else "", Begun(l),
                   if l.container.Started? && l.peerKeyFound && l.configWritten then "pc-" + Name(id) + ".conf" else "")
  }

  function Acquired(h: Host, id: string, l: Luck): (r: Host)
    ensures SameElsewhere(r, h, Name(id))
  {
    Host(AfterStart(h.containers, Name(id), l.container),
         if MakesConfig(l) then h.configs + {Name(id)} else h.configs,
         if MakesTunnel(l) then h.tunnels + {Name(id)} else h.tunnels,
         h.tasks + (set t | t in Begun(l) :: (id, t)))
  }

  function UndoneHost(h: Host, id: string, rs: RunningSession, undo: Undo): (r: Host)
    ensures SameElsewhere(r, h, Name(id))
    ensures forall p :: p in r.tasks <==> p in h.tasks && !(p.0 == id && p.1 in rs.cancels)
  {
    Host(if rs.containerID != "" && undo.container then h.containers - {Name(id)} else h.containers,
         if undo.config then h.configs - {Name(id)} else h.configs,
         if rs.wgConfPath != "" && undo.tunnel then h.tunnels - {Name(id)} else h.tunnels,
         h.tasks - (set t | t in rs.cancels :: (id, t)))
  }
}
