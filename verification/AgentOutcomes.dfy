/** What starts and stops of sessions on the agent leave behind, over every interleaving. */
module AgentOutcomes {
  import opened AgentDaemon
  import opened AgentRuns

  lemma {:induction false} AlwaysSane(evs: seq<Event>)
    ensures TableOk(Exec(evs)) && AllSane(Exec(evs)) && Made(Exec(evs))
  {
    if evs != [] {
      AlwaysSane(evs[..|evs| - 1]);
      TableStep(Exec(evs[..|evs| - 1]), evs[|evs| - 1]);
      MadeStep(Exec(evs[..|evs| - 1]), evs[|evs| - 1]);
      SaneStep(Exec(evs[..|evs| - 1]), evs[|evs| - 1]);
    }
  }

  lemma OneMore(evs: seq<Event>, n: nat)
    requires n < |evs|
    ensures Exec(evs[..n + 1]) == Next(Exec(evs[..n]), evs[n])
  {
    assert evs[..n + 1][..n] == evs[..n];
  }

  // ---- At most one start per session ----

  ghost predicate NeverSteals(evs: seq<Event>) {
    forall i :: 0 <= i < |evs| ==> !Steals(Exec(evs[..i]), evs[i])
  }

  lemma {:induction false} ListedUpTo(evs: seq<Event>, n: nat)
    requires NeverSteals(evs) && n <= |evs|
    ensures Listed(Exec(evs[..n]))
  {
    if n > 0 {
      ListedUpTo(evs, n - 1);
      OneMore(evs, n - 1);
      AlwaysSane(evs[..n - 1]);
      ListedStepIff(Exec(evs[..n - 1]), evs[n - 1]);
    }
  }

  lemma {:induction false} StolenBreaks(evs: seq<Event>, i: nat)
    requires i < |evs| && Steals(Exec(evs[..i]), evs[i]) && Listed(Exec(evs[..i]))
    ensures !Listed(Exec(evs[..i + 1]))
  {
    OneMore(evs, i);
    AlwaysSane(evs[..i]);
    ListedStepIff(Exec(evs[..i]), evs[i]);
  }

  /** In every state of a run each start that holds its session's reservation is the one the table lists, exactly
      when no failing start of the run gives up the reservation of another start. */
  lemma ReservationsIff(evs: seq<Event>)
    ensures (forall n :: 0 <= n <= |evs| ==> Listed(Exec(evs[..n]))) <==> NeverSteals(evs)
  {
    if NeverSteals(evs) {
      forall n | 0 <= n <= |evs| ensures Listed(Exec(evs[..n])) {
        ListedUpTo(evs, n);
      }
    } else {
      var i :| 0 <= i < |evs| && Steals(Exec(evs[..i]), evs[i]);
      if Listed(Exec(evs[..i])) {
        StolenBreaks(evs, i);
      }
    }
  }

  /** However polls, stops and steps interleave in such a run, one start at most holds for a session. */
  lemma OneStartPerSession(evs: seq<Event>, t: nat, u: nat)
    requires NeverSteals(evs) && t < |Exec(evs).starts| && u < |Exec(evs).starts|
    requires Exec(evs).starts[t].id == Exec(evs).starts[u].id
    requires Holding(Exec(evs).starts[t]) && Holding(Exec(evs).starts[u])
    ensures t == u
  {
    ListedUpTo(evs, |evs|);
    assert evs[..|evs|] == evs;
  }

  // ---- Nothing stays behind ----

  datatype Holdings = Holdings(reservation: bool, container: bool, relay: bool, proxy: bool, config: bool, tunnel: bool)

  const NOTHING := Holdings(false, false, false, false, false, false)

  function Held(s: State, t: nat): Holdings
    requires t < |s.starts|
  {
    var n := NameOf(s, t);
    Holdings(Owns(s.sessions, s.starts[t].id, t), Owns(s.containers, n, t), (t, RelayClient) in s.tasks,
             (t, SSHProxy) in s.tasks, Owns(s.configs, n, t), Owns(s.tunnels, n, t))
  }

  ghost predicate NeverOutruns(evs: seq<Event>) {
    forall i :: 0 <= i < |evs| ==> !Outruns(Exec(evs[..i]), evs[i])
  }

  lemma {:induction false} AccountedUpTo(evs: seq<Event>, n: nat)
    requires NeverOutruns(evs) && n <= |evs|
    ensures Accounted(Exec(evs[..n]))
  {
    if n > 0 {
      AccountedUpTo(evs, n - 1);
      OneMore(evs, n - 1);
      AlwaysSane(evs[..n - 1]);
      AccountedStepIff(Exec(evs[..n - 1]), evs[n - 1]);
    }
  }

  lemma OutrunBreaks(evs: seq<Event>, i: nat)
    requires i < |evs| && Outruns(Exec(evs[..i]), evs[i]) && Accounted(Exec(evs[..i]))
    ensures !Accounted(Exec(evs[..i + 1]))
  {
    OneMore(evs, i);
    AlwaysSane(evs[..i]);
    AccountedStepIff(Exec(evs[..i]), evs[i]);
  }

  /** In every state of a run whatever exists is in the record of a start that no undoing has gone past, or could not be
      removed, exactly when no start of the run acquires anything after a stop of it has gone past undoing that. */
  lemma AccountedIff(evs: seq<Event>)
    ensures (forall n :: 0 <= n <= |evs| ==> Accounted(Exec(evs[..n]))) <==> NeverOutruns(evs)
  {
    if NeverOutruns(evs) {
      forall n | 0 <= n <= |evs| ensures Accounted(Exec(evs[..n])) {
        AccountedUpTo(evs, n);
      }
    } else {
      var i :| 0 <= i < |evs| && Outruns(Exec(evs[..i]), evs[i]);
      if Accounted(Exec(evs[..i])) {
        OutrunBreaks(evs, i);
      }
    }
  }

  /** In such a run a start that has been undone, by itself or by a stop, holds no reservation and no goroutine, and a
      container, a file or a tunnel only if that very thing was left: the container because its ID was never recorded,
      each because the call to remove it failed. */
  lemma EndedHoldsNothing(evs: seq<Event>, t: nat)
    requires NeverOutruns(evs) && t < |Exec(evs).starts|
    requires Exec(evs).starts[t].own.Done? || Exec(evs).starts[t].stop.Done?
    ensures var held, left := Held(Exec(evs), t), Exec(evs).starts[t].left;
            && !held.reservation && !held.relay && !held.proxy
            && (held.container ==> left.container)
            && (held.config ==> left.config)
            && (held.tunnel ==> left.tunnel)
  {
    AccountedUpTo(evs, |evs|);
    assert evs[..|evs|] == evs;
    AlwaysSane(evs);
  }

  // ---- Stops of sessions that are running ----

  /** Every stop of the run finds its session running. */
  ghost predicate StopsRunning(evs: seq<Event>) {
    forall i :: 0 <= i < |evs| && evs[i].Stop? && Enabled(Exec(evs[..i]), evs[i]) ==>
                  Exec(evs[..i]).starts[evs[i].t].phase.Running?
  }

  ghost predicate StoppedRan(s: State) {
    forall t :: 0 <= t < |s.starts| && !s.starts[t].stop.Idle? ==> s.starts[t].phase.Running?
  }

  lemma StoppedRanStep(s: State, e: Event)
    requires StoppedRan(s) && (e.Stop? && Enabled(s, e) ==> s.starts[e.t].phase.Running?)
    ensures StoppedRan(Next(s, e))
  {
    if Enabled(s, e) && !e.Begin? {
      forall u | 0 <= u < |s.starts| && !Next(s, e).starts[u].stop.Idle? ensures Next(s, e).starts[u].phase.Running? {
        StepAt(s, e, u);
        assert Core(Next(s, e).starts[u]).phase == Next(s, e).starts[u].phase;
        assert Core(Next(s, e).starts[u]).stop == Next(s, e).starts[u].stop;
      }
      StepFrame(s, e);
    }
  }

  lemma RunningStopsAreClean(s: State, e: Event)
    requires TableOk(s) && AllSane(s) && Listed(s) && StoppedRan(s)
    ensures !Steals(s, e) && !Outruns(s, e)
  {
    if Enabled(s, e) && !e.Begin? {
      assert Sane(s.starts[e.t], e.t);
    }
  }

  lemma {:induction false} RunningStopsUpTo(evs: seq<Event>, n: nat)
    requires StopsRunning(evs) && n <= |evs|
    ensures StoppedRan(Exec(evs[..n])) && Listed(Exec(evs[..n]))
  {
    if n > 0 {
      RunningStopsUpTo(evs, n - 1);
      OneMore(evs, n - 1);
      AlwaysSane(evs[..n - 1]);
      StoppedRanStep(Exec(evs[..n - 1]), evs[n - 1]);
      RunningStopsAreClean(Exec(evs[..n - 1]), evs[n - 1]);
      ListedStepIff(Exec(evs[..n - 1]), evs[n - 1]);
    }
  }

  /** It is enough that every stop finds its session running: then no reservation is taken from another start, and
      no start outruns a stop. */
  lemma RunningStopsSuffice(evs: seq<Event>)
    requires StopsRunning(evs)
    ensures NeverSteals(evs) && NeverOutruns(evs)
  {
    forall i | 0 <= i < |evs| ensures !Steals(Exec(evs[..i]), evs[i]) && !Outruns(Exec(evs[..i]), evs[i]) {
      RunningStopsUpTo(evs, i);
      AlwaysSane(evs[..i]);
      RunningStopsAreClean(Exec(evs[..i]), evs[i]);
    }
  }
}
