/** The registry on its two stores: when they hold the same records and give the same answers. */
module RegistryStores {
  import opened PrefixLookup
  import opened Records
  import opened Registry

  /** The prefix a call looks a record up by, free of `LIKE` wildcards. */
  predicate PlainCall(c: Call) {
    match c
    case Heartbeat(provider, _, _, _, _) => Plain(provider)
    case CreateSession(provider, _, _, _, _, _, _, _, _, _, _) => Plain(provider)
    case GetSession(session) => Plain(session)
    case TerminateSession(session, _, _) => Plain(session)
    case UpdateSessionStatus(session, _, _, _, _, _, _, _) => Plain(session)
    case ExchangeCandidates(session, _, _) => Plain(session)
    case ReportConnectionResult(session, _, _) => Plain(session)
    case _ => true
  }

  /** No row fails to be written. */
  predicate NoFailures(c: Call) {
    match c
    case GetSession(_) => true
    case ListProviderSessions(_, _) => true
    case ExchangeCandidates(_, _, _) => true
    case _ => c.failing == {}
  }

  /** The IDs a call makes up are new. */
  predicate FreshIDs(st: State, c: Call) {
    && (c.RegisterProvider? ==> c.freshID !in st.db.providers)
    && (c.CreateSession? ==> c.freshID !in st.db.sessions)
  }

  /** A "running" update without an endpoint that would change the record it is refused for. */
  ghost predicate RefusedEdit(st: State, c: Call) {
    c.UpdateSessionStatus? && Refused(c) &&
    var found := Resolve(Memory, st.db.sessions.Keys, c.session);
    && found.Found? && found.value in st.db.sessions
    && Updated(st.db.sessions[found.value], c) != st.db.sessions[found.value]
  }

  lemma SameResolve(ids: set<string>, prefix: string)
    requires Plain(prefix)
    ensures Resolve(Memory, ids, prefix) == Resolve(Postgres, ids, prefix)
    ensures Resolve(Memory, ids, prefix).Found? ==> Resolve(Memory, ids, prefix).value in ids
  {
    SameVerdict(ids, prefix);
    ResolveIn(Memory, ids, prefix);
  }

  lemma RegisterAgrees(st: State, c: Call)
    requires Ok(st) && c.RegisterProvider? && c.failing == {} && FreshIDs(st, c)
    ensures DoRegisterProvider(Memory, st, c) == DoRegisterProvider(Postgres, st, c)
  {
  }

  lemma HeartbeatAgrees(st: State, c: Call)
    requires Ok(st) && c.Heartbeat? && c.failing == {} && PlainCall(c)
    ensures DoHeartbeat(Memory, st, c) == DoHeartbeat(Postgres, st, c)
  {
    SameResolve(st.db.providers.Keys, c.provider);
  }

  lemma CreateAgrees(st: State, c: Call)
    requires Ok(st) && c.CreateSession? && c.failing == {} && PlainCall(c) && FreshIDs(st, c)
    ensures DoCreateSession(Memory, st, c) == DoCreateSession(Postgres, st, c)
  {
    SameResolve(st.db.providers.Keys, c.provider);
  }

  lemma TerminateAgrees(st: State, c: Call)
    requires Ok(st) && c.TerminateSession? && c.failing == {} && PlainCall(c)
    ensures DoTerminateSession(Memory, st, c) == DoTerminateSession(Postgres, st, c)
  {
    SameResolve(st.db.sessions.Keys, c.session);
  }

  lemma ReportAgrees(st: State, c: Call)
    requires Ok(st) && c.ReportConnectionResult? && c.failing == {} && PlainCall(c)
    ensures DoReportConnectionResult(Memory, st, c) == DoReportConnectionResult(Postgres, st, c)
  {
    SameResolve(st.db.sessions.Keys, c.session);
  }

  lemma UpdateAgreesIff(st: State, c: Call)
    requires Ok(st) && c.UpdateSessionStatus? && c.failing == {} && PlainCall(c)
    ensures DoUpdateSessionStatus(Memory, st, c).reply == DoUpdateSessionStatus(Postgres, st, c).reply
    ensures DoUpdateSessionStatus(Memory, st, c).state == DoUpdateSessionStatus(Postgres, st, c).state <==>
              !RefusedEdit(st, c)
  {
    SameResolve(st.db.sessions.Keys, c.session);
    var found := Resolve(Memory, st.db.sessions.Keys, c.session);
    if found.Found? {
      var rec := st.db.sessions[found.value];
      if Refused(c) {
        assert (st.db.sessions[rec.id := Updated(rec, c)])[rec.id] == Updated(rec, c);
        if Updated(rec, c) == rec {
          assert st.db.sessions[rec.id := rec] == st.db.sessions;
        }
      }
    }
  }

  /** From equal contents the two stores answer alike, and hold equal contents afterwards unless the call
      is a refused "running" update that the sharing store has already let through. */
  lemma StepAgreesIff(st: State, c: Call)
    requires Ok(st) && PlainCall(c) && NoFailures(c) && FreshIDs(st, c)
    ensures Next(Memory, st, c) == Next(Postgres, st, c) <==> !RefusedEdit(st, c)
    ensures forall reply :: Answers(Memory, st, c, reply) <==> Answers(Postgres, st, c, reply)
  {
    if c.RegisterProvider? { RegisterAgrees(st, c); }
    if c.Heartbeat? { HeartbeatAgrees(st, c); }
    if c.CreateSession? { CreateAgrees(st, c); }
    if c.TerminateSession? { TerminateAgrees(st, c); }
    if c.ReportConnectionResult? { ReportAgrees(st, c); }
    if c.UpdateSessionStatus? { UpdateAgreesIff(st, c); }
    if c.ExchangeCandidates? || c.GetSession? { SameResolve(st.db.sessions.Keys, c.session); }
  }

  /** Every call of the run meets the hypotheses in the state it finds. */
  ghost predicate Comparable(st: State, calls: seq<Call>)
    requires Ok(st)
    decreases |calls|
  {
    calls == [] ||
    (&& PlainCall(calls[0]) && NoFailures(calls[0]) && FreshIDs(st, calls[0])
     && Comparable(Next(Memory, st, calls[0]), calls[1..]))
  }

  /** No call of the run is a refused update that changes its record. */
  ghost predicate NoRefusedEdit(st: State, calls: seq<Call>)
    requires Ok(st)
    decreases |calls|
  {
    calls == [] || (!RefusedEdit(st, calls[0]) && NoRefusedEdit(Next(Memory, st, calls[0]), calls[1..]))
  }

  /** The two stores hold equal contents before, during and after the run, and the two registries answer
      each call alike. */
  ghost predicate Indistinguishable(m: State, p: State, calls: seq<Call>)
    requires Ok(m) && Ok(p)
    decreases |calls|
  {
    m == p &&
    (calls == [] ||
     (&& (forall reply :: Answers(Memory, m, calls[0], reply) <==> Answers(Postgres, p, calls[0], reply))
      && Indistinguishable(Next(Memory, m, calls[0]), Next(Postgres, p, calls[0]), calls[1..])))
  }

  /** Store simulation: over every run without wildcards, SQL errors or repeated IDs the sharing store and
      the upserting store are indistinguishable exactly when no refused update changes a record. */
  lemma {:induction false} StoresSimulateIff(st: State, calls: seq<Call>)
    requires Ok(st) && Comparable(st, calls)
    ensures Indistinguishable(st, st, calls) <==> NoRefusedEdit(st, calls)
    ensures NoRefusedEdit(st, calls) ==> Run(Memory, st, calls) == Run(Postgres, st, calls)
    decreases |calls|
  {
    if calls != [] {
      StepAgreesIff(st, calls[0]);
      if !RefusedEdit(st, calls[0]) {
        StoresSimulateIff(Next(Memory, st, calls[0]), calls[1..]);
      }
    }
  }

  /** The hypothesis on refused updates is needed: for a pending session the stores differ at once, and
      the record in memory runs without an endpoint. */
  lemma RefusedUpdateDiverges(st: State, id: string, now: int)
    requires Ok(st) && id in st.db.sessions && Plain(id)
    requires st.db.sessions[id].status == "pending" && st.db.sessions[id].wgEndpoint == ""
    ensures var c := UpdateSessionStatus(id, "running", "", "", "", "", now, {});
            && Next(Postgres, st, c) == st
            && Next(Memory, st, c) != st
            && Answers(Memory, st, c, Failed(FailedPrecondition))
            && Answers(Postgres, st, c, Failed(FailedPrecondition))
            && Next(Memory, st, c).db.sessions[id].status == "running"
            && Next(Memory, st, c).db.sessions[id].wgEndpoint == ""
  {
    var c := UpdateSessionStatus(id, "running", "", "", "", "", now, {});
    SameResolve(st.db.sessions.Keys, id);
    assert Resolve(Memory, st.db.sessions.Keys, id) == Found(id);
  }
}
