/** The registry's remote calls, each as one step on its whole state. */
module Registry {
  import opened Text
  import opened Tunnel
  import opened PrefixLookup
  import opened Records

  const HEARTBEAT_TIMEOUT := 30

  /** NAT candidates are opaque here. */
  datatype CandidateSet = CandidateSet(candidates: seq<string>, wgPublicKey: string)

  datatype RelayCall = RegisterRelay(token: string, sessionID: string) | InvalidateRelay(token: string)

  /** `outcomes` are the session IDs passed to `RecordOutcome`, `relayCalls` the calls to the relay. */
  datatype State = State(
    db: DB,
    slots: Slots,
    candidates: map<string, map<string, CandidateSet>>,
    outcomes: seq<string>,
    relayCalls: seq<RelayCall>)

  const START := State(EMPTY_DB, EMPTY, map[], [], [])

  datatype Capacity = Capacity(cpuCores: nat, memoryMB: nat, diskGB: nat, gpuCount: nat, gpuModel: string)
  datatype Available = Available(cpuCores: nat, memoryMB: nat, gpuCount: nat)
  datatype Requested = Requested(cpuCores: nat, memoryMB: nat)

  /** A call with its arguments and what the world answers: the clock, fresh IDs, the verdicts of plugins,
      and the rows the database fails to write. */
  datatype Call =
    | RegisterProvider(existingID: string, name: string, address: string, capacity: Capacity,
                       freshID: string, hookOk: bool, now: int, failing: set<string>)
    | Heartbeat(provider: string, available: Option<Available>, active: seq<string>, now: int, failing: set<string>)
    | ListProviders(filter: ProviderFilter, now: int, failing: set<string>)
    | CreateSession(provider: string, renterID: string, image: string, requested: Option<Requested>,
                    networkPolicy: string, wgPublicKey: string, reputable: bool,
                    freshID: string, freshToken: string, now: int, failing: set<string>)
    | GetSession(session: string)
    | TerminateSession(session: string, now: int, failing: set<string>)
    | ListProviderSessions(providerID: string, statusFilter: string)
    | UpdateSessionStatus(session: string, status: string, containerID: string, sshEndpoint: string,
                          wgPublicKey: string, wgEndpoint: string, now: int, failing: set<string>)
    | ExchangeCandidates(session: string, peerID: string, offer: CandidateSet)
    | ReportConnectionResult(session: string, useRelay: bool, failing: set<string>)

  datatype Code = NotFoundCode | InvalidArgument | Unavailable | ResourceExhausted | FailedPrecondition | Internal

  /** Lists are answered in no particular order. */
  datatype Reply =
    | Failed(code: Code)
    | Registered(provider: Provider)
    | Acknowledged(terminate: set<string>)
    | Providers(providers: set<Provider>)
    | OneSession(session: Session)
    | Sessions(sessions: set<Session>)
    | Done
    | Exchanged(relayToken: string, peer: Option<CandidateSet>)

  datatype Result = Result(state: State, reply: Reply)

  ghost predicate Ok(st: State) {
    Keyed(st.db) && SlotsOk(st.slots)
  }

  /** `storeErr` on the errors of a lookup. */
  function LookupError<T>(r: Lookup<T>): Reply
    requires !r.Found?
  {
    if r.NotFound? then Failed(NotFoundCode) else Failed(InvalidArgument)
  }

  // ---- Providers ----

  function Refreshed(p: Provider, name: string, address: string, c: Capacity, now: int): Provider {
    p.(name := name, address := address, status := "online",
       cpuCores := c.cpuCores, memoryMB := c.memoryMB, diskGB := c.diskGB,
       gpuCount := c.gpuCount, gpuModel := c.gpuModel,
       availCPU := c.cpuCores, availMemoryMB := c.memoryMB, availGPU := c.gpuCount, lastHeartbeat := now)
  }

  function NewProvider(id: string, name: string, address: string, c: Capacity, now: int): Provider {
    Provider(id, name, address, "", "online", c.cpuCores, c.memoryMB, c.diskGB, c.gpuCount, c.gpuModel,
             c.cpuCores, c.memoryMB, c.gpuCount, now, now)
  }

  function DoRegisterProvider(b: Backend, st: State, c: Call): (r: Result)
    requires c.RegisterProvider?
    ensures Ok(st) ==> Ok(r.state)
    ensures r.state == st.(db := DB(r.state.db.providers, st.db.sessions))
  {
    if c.existingID != "" && c.existingID in st.db.providers then
      var rec := Refreshed(st.db.providers[c.existingID], c.name, c.address, c.capacity, c.now);
      RegisterAs(b, st, c, rec, EditProvider(b, st.db, rec))
    else
      RegisterAs(b, st, c, NewProvider(c.freshID, c.name, c.address, c.capacity, c.now), st.db)
  }

  /** `rec` is written over `db` and the plugin hook is asked. */
  function RegisterAs(b: Backend, st: State, c: Call, rec: Provider, db: DB): Result
    requires c.RegisterProvider?
  {
    Result(st.(db := StoreProvider(b, db, rec, c.failing)),
           if WriteFails(b, rec.id, c.failing) || !c.hookOk then Failed(Internal) else Registered(rec))
  }

  function WithResources(p: Provider, a: Available, now: int): Provider {
    p.(lastHeartbeat := now, status := "online", availCPU := a.cpuCores, availMemoryMB := a.memoryMB,
       availGPU := a.gpuCount)
  }

  /** A heartbeat with resources rewrites the provider's record, one without them only its time and status. */
  function BeatDB(b: Backend, db: DB, p: Provider, c: Call): (r: DB)
    requires c.Heartbeat?
    ensures Keyed(db) ==> Keyed(r)
    ensures r.sessions == db.sessions
  {
    match c.available
    case Some(a) =>
      var rec := WithResources(p, a, c.now);
      StoreProvider(b, EditProvider(b, db, rec), rec, c.failing)
    case None => StoreHeartbeat(b, db, p.id, c.now, c.failing)
  }

  ghost function HeartbeatOf(b: Backend, st: State, c: Call, p: Provider): (r: Result)
    requires c.Heartbeat?
    ensures Ok(st) ==> Ok(r.state)
    ensures r.state == st.(db := DB(r.state.db.providers, st.db.sessions))
  {
    var st' := st.(db := BeatDB(b, st.db, p, c));
    if WriteFails(b, p.id, c.failing) then Result(st', Failed(Internal))
    else Result(st', Acknowledged(TerminatedIDs(st'.db, (set id | id in c.active), p.id)))
  }

  ghost function DoHeartbeat(b: Backend, st: State, c: Call): (r: Result)
    requires c.Heartbeat?
    ensures Ok(st) ==> Ok(r.state)
    ensures r.state == st.(db := DB(r.state.db.providers, st.db.sessions))
  {
    var found := Resolve(b, st.db.providers.Keys, c.provider);
    if !found.Found? then Result(st, LookupError(found))
    else
      ResolveIn(b, st.db.providers.Keys, c.provider);
      HeartbeatOf(b, st, c, st.db.providers[found.value])
  }

  predicate Stale(p: Provider, now: int) {
    p.lastHeartbeat < now - HEARTBEAT_TIMEOUT
  }

  /** The providers `visited` that have no recent heartbeat are marked offline. */
  ghost function MarkStale(b: Backend, ps: map<string, Provider>, visited: set<string>, now: int,
                           failing: set<string>): map<string, Provider> {
    map id | id in ps ::
      if id in visited && Stale(ps[id], now) && !WriteFails(b, ps[id].id, failing)
      then ps[id].(status := "offline") else ps[id]
  }

  ghost function Selected(ps: map<string, Provider>, f: ProviderFilter): set<string> {
    set id | id in ps && SelectsProvider(f, ps[id])
  }

  /** The providers `visited` that are online with a recent heartbeat. */
  ghost function Fresh(ps: map<string, Provider>, visited: set<string>, now: int): set<Provider> {
    set id | id in visited && id in ps && !Stale(ps[id], now) && ps[id].status == "online" :: ps[id]
  }

  ghost function DoListProviders(b: Backend, st: State, c: Call): (r: Result)
    requires c.ListProviders?
    ensures Ok(st) ==> Ok(r.state)
    ensures r.state == st.(db := DB(r.state.db.providers, st.db.sessions))
  {
    var ps := st.db.providers;
    var listed := Selected(ps, c.filter);
    Result(st.(db := st.db.(providers := MarkStale(b, ps, listed, c.now, c.failing))),
           Providers(Fresh(ps, listed, c.now)))
  }

  // ---- Sessions ----

  /** At most the row of `id` differs, and at most one outcome, for `id`, was recorded. */
  ghost predicate OnlySession(st: State, r: State, id: string) {
    && (r.db.sessions == st.db.sessions
        || (id in r.db.sessions && r.db.sessions == st.db.sessions[id := r.db.sessions[id]]))
    && (r.outcomes == st.outcomes || r.outcomes == st.outcomes + [id])
    && r.db.providers == st.db.providers
  }

  function NewSession(c: Call, providerID: string, providerIP: string, renterIP: string): Session
    requires c.CreateSession?
  {
    Session(c.freshID, providerID, c.renterID, c.image, "pending", "", "", "", c.freshToken, "", "",
            providerIP, renterIP,
            if c.requested.Some? then c.requested.value.cpuCores else 0,
            if c.requested.Some? then c.requested.value.memoryMB else 0,
            c.now, 0)
  }

  function Submit(cs: map<string, map<string, CandidateSet>>, session: string, peer: string,
                  offer: CandidateSet): map<string, map<string, CandidateSet>> {
    cs[session := (if session in cs then cs[session] else map[])[peer := offer]]
  }

  /** Allocation, record and the renter's key, once the provider is accepted. */
  ghost function Created(b: Backend, st: State, c: Call, providerID: string): (r: Result)
    requires c.CreateSession? && Ok(st)
    ensures Ok(r.state)
    ensures r.state.slots == st.slots || r.state.slots == Take(st.slots, c.freshID)
    ensures OnlySession(st, r.state, c.freshID) && r.state.outcomes == st.outcomes
    ensures r.state.candidates == st.candidates
            || r.state.candidates == Submit(st.candidates, c.freshID, c.renterID, CandidateSet([], c.wgPublicKey))
  {
    if Full(st.slots) then Result(st, Failed(ResourceExhausted))
    else
      var idx := NextSlot(st.slots);
      var rec := NewSession(c, providerID, ProviderIP(idx), RenterIP(idx));
      var st' := st.(slots := Take(st.slots, c.freshID), db := StoreSession(b, st.db, rec, c.failing));
      if WriteFails(b, rec.id, c.failing) then Result(st', Failed(Internal))
      else
        var cs := if c.wgPublicKey == "" then st.candidates
                  else Submit(st.candidates, c.freshID, c.renterID, CandidateSet([], c.wgPublicKey));
        Result(st'.(candidates := cs), OneSession(rec))
  }

  ghost function DoCreateSession(b: Backend, st: State, c: Call): (r: Result)
    requires c.CreateSession? && Ok(st)
    ensures Ok(r.state)
    ensures r.state.slots == st.slots || r.state.slots == Take(st.slots, c.freshID)
    ensures OnlySession(st, r.state, c.freshID) && r.state.outcomes == st.outcomes
    ensures r.state.candidates == st.candidates
            || r.state.candidates == Submit(st.candidates, c.freshID, c.renterID, CandidateSet([], c.wgPublicKey))
  {
    if c.networkPolicy == "wireguard_required" && c.wgPublicKey == "" then Result(st, Failed(InvalidArgument))
    else
      var found := Resolve(b, st.db.providers.Keys, c.provider);
      if !found.Found? then Result(st, LookupError(found))
      else
        ResolveIn(b, st.db.providers.Keys, c.provider);
        var p := st.db.providers[found.value];
        if p.status != "online" || !c.reputable then Result(st, Failed(Unavailable))
        else Created(b, st, c, p.id)
  }

  ghost function DoGetSession(b: Backend, st: State, c: Call): (r: Result)
    requires c.GetSession?
    ensures Ok(st) ==> Ok(r.state)
  {
    var found := Resolve(b, st.db.sessions.Keys, c.session);
    if !found.Found? then Result(st, LookupError(found))
    else
      ResolveIn(b, st.db.sessions.Keys, c.session);
      Result(st, OneSession(st.db.sessions[found.value]))
  }

  /** What a termination does to the session record `row` it names. */
  ghost function TerminateOf(b: Backend, st: State, c: Call, row: Session): (r: Result)
    requires c.TerminateSession? && Ok(st) && row.id in st.db.sessions
    ensures Ok(r.state)
    ensures r.state.slots == st.slots || r.state.slots == Release(st.slots, row.id)
    ensures OnlySession(st, r.state, row.id)
    ensures r.state.candidates == st.candidates || r.state.candidates == st.candidates - {row.id}
  {
    var rec := row.(status := "terminated", terminatedAt := c.now);
    var st' := st.(db := WriteBack(b, st.db, rec, c.failing));
    if WriteFails(b, rec.id, c.failing) then Result(st', Failed(Internal))
    else
      Result(st'.(outcomes := st.outcomes + [rec.id],
                  relayCalls := if rec.relayToken == "" then st.relayCalls
                                else st.relayCalls + [InvalidateRelay(rec.relayToken)],
                  candidates := st.candidates - {rec.id},
                  slots := Release(st.slots, rec.id)),
             Done)
  }

  ghost function DoTerminateSession(b: Backend, st: State, c: Call): (r: Result)
    requires c.TerminateSession? && Ok(st)
    ensures Ok(r.state)
    ensures r.state.slots == st.slots || (Resolve(b, st.db.sessions.Keys, c.session).Found?
              && r.state.slots == Release(st.slots, Resolve(b, st.db.sessions.Keys, c.session).value))
    ensures if Resolve(b, st.db.sessions.Keys, c.session).Found?
            then OnlySession(st, r.state, Resolve(b, st.db.sessions.Keys, c.session).value) else r.state == st
    ensures r.state.candidates == st.candidates || (Resolve(b, st.db.sessions.Keys, c.session).Found?
              && r.state.candidates == st.candidates - {Resolve(b, st.db.sessions.Keys, c.session).value})
  {
    var found := Resolve(b, st.db.sessions.Keys, c.session);
    if !found.Found? then Result(st, LookupError(found))
    else
      ResolveIn(b, st.db.sessions.Keys, c.session);
      TerminateOf(b, st, c, st.db.sessions[found.value])
  }

  ghost function DoListProviderSessions(st: State, c: Call): (r: Result)
    requires c.ListProviderSessions?
    ensures Ok(st) ==> Ok(r.state)
  {
    Result(st, Sessions(SelectedSessions(st.db, SessionFilter(c.providerID, "", c.statusFilter))))
  }

  /** The record after the field updates of `UpdateSessionStatus`, up to the check on "running". */
  function Updated(s: Session, c: Call): Session
    requires c.UpdateSessionStatus?
  {
    s.(status := c.status,
       terminatedAt := if c.status == "terminated" && s.status != "terminated" then c.now else s.terminatedAt,
       containerID := if c.containerID != "" then c.containerID else s.containerID,
       sshEndpoint := if c.sshEndpoint != "" then c.sshEndpoint else s.sshEndpoint,
       wgPublicKey := if c.wgPublicKey != "" then c.wgPublicKey else s.wgPublicKey,
       wgEndpoint := if c.wgEndpoint != "" then c.wgEndpoint else s.wgEndpoint)
  }

  predicate Refused(c: Call)
    requires c.UpdateSessionStatus?
  {
    c.status == "running" && c.wgEndpoint == ""
  }

  /** What an update does to the session record `row` it names. */
  ghost function UpdateOf(b: Backend, st: State, c: Call, row: Session): (r: Result)
    requires c.UpdateSessionStatus? && Ok(st) && row.id in st.db.sessions
    ensures Ok(r.state)
    ensures r.state.slots == st.slots || r.state.slots == Release(st.slots, row.id)
    ensures OnlySession(st, r.state, row.id)
    ensures r.state.candidates == st.candidates
  {
    var ends := c.status == "terminated" && row.status != "terminated";
    var st1 := if ends then st.(outcomes := st.outcomes + [row.id], slots := Release(st.slots, row.id)) else st;
    var edited := Updated(row, c);
    if Refused(c) then Result(st1.(db := EditSession(b, st.db, edited)), Failed(FailedPrecondition))
    else
      var direct := c.status == "running" && edited.connectionMode == "";
      var rec := if direct then edited.(connectionMode := "direct") else edited;
      Result(st1.(db := WriteBack(b, st.db, rec, c.failing)),
             if WriteFails(b, rec.id, c.failing) then Failed(Internal) else Done)
  }

  ghost function DoUpdateSessionStatus(b: Backend, st: State, c: Call): (r: Result)
    requires c.UpdateSessionStatus? && Ok(st)
    ensures Ok(r.state)
    ensures r.state.slots == st.slots || (Resolve(b, st.db.sessions.Keys, c.session).Found?
              && r.state.slots == Release(st.slots, Resolve(b, st.db.sessions.Keys, c.session).value))
    ensures if Resolve(b, st.db.sessions.Keys, c.session).Found?
            then OnlySession(st, r.state, Resolve(b, st.db.sessions.Keys, c.session).value) else r.state == st
    ensures r.state.candidates == st.candidates
  {
    var found := Resolve(b, st.db.sessions.Keys, c.session);
    if !found.Found? then Result(st, LookupError(found))
    else
      ResolveIn(b, st.db.sessions.Keys, c.session);
      UpdateOf(b, st, c, st.db.sessions[found.value])
  }

  ghost function DoExchangeCandidates(b: Backend, st: State, c: Call): (r: State)
    requires c.ExchangeCandidates?
    ensures Ok(st) ==> Ok(r)
  {
    var found := Resolve(b, st.db.sessions.Keys, c.session);
    if !found.Found? then st
    else st.(candidates := Submit(st.candidates, found.value, c.peerID, c.offer))
  }

  /** The handler answers with some other peer's candidates, if there is another peer. */
  ghost predicate ExchangeReply(b: Backend, st: State, c: Call, reply: Reply)
    requires c.ExchangeCandidates?
  {
    var found := Resolve(b, st.db.sessions.Keys, c.session);
    if !found.Found? then reply == LookupError(found)
    else
      ResolveIn(b, st.db.sessions.Keys, c.session);
      var peers := Submit(st.candidates, found.value, c.peerID, c.offer)[found.value];
      && reply.Exchanged? && reply.relayToken == st.db.sessions[found.value].relayToken
      && IsSomeOther(peers, c.peerID, reply.peer)
  }

  /** Some other peer's candidates, or none if the caller is the only one. */
  ghost predicate IsSomeOther(peers: map<string, CandidateSet>, caller: string, r: Option<CandidateSet>) {
    if r.None? then forall p :: p in peers ==> p == caller
    else exists p :: p in peers && p != caller && r.value == peers[p]
  }

  /** What a connection report does to the session record `row` it names. */
  ghost function ReportOf(b: Backend, st: State, c: Call, row: Session): (r: Result)
    requires c.ReportConnectionResult? && Ok(st) && row.id in st.db.sessions
    ensures Ok(r.state)
    ensures r.state.slots == st.slots && r.state.candidates == st.candidates
    ensures OnlySession(st, r.state, row.id)
  {
    var rec := row.(connectionMode := if c.useRelay then "relay" else "holepunch");
    var calls := if c.useRelay then st.relayCalls + [RegisterRelay(rec.relayToken, rec.id)] else st.relayCalls;
    var st' := st.(db := WriteBack(b, st.db, rec, c.failing), relayCalls := calls);
    Result(st', if WriteFails(b, rec.id, c.failing) then Failed(Internal) else Done)
  }

  ghost function DoReportConnectionResult(b: Backend, st: State, c: Call): (r: Result)
    requires c.ReportConnectionResult? && Ok(st)
    ensures Ok(r.state)
    ensures r.state.slots == st.slots
    ensures if Resolve(b, st.db.sessions.Keys, c.session).Found?
            then OnlySession(st, r.state, Resolve(b, st.db.sessions.Keys, c.session).value) else r.state == st
    ensures r.state.candidates == st.candidates
  {
    var found := Resolve(b, st.db.sessions.Keys, c.session);
    if !found.Found? then Result(st, LookupError(found))
    else
      ResolveIn(b, st.db.sessions.Keys, c.session);
      ReportOf(b, st, c, st.db.sessions[found.value])
  }

  // ---- All calls ----

  /** State and reply of every call whose reply is determined. */
  ghost function Handle(b: Backend, st: State, c: Call): (r: Result)
    requires Ok(st) && !c.ExchangeCandidates?
    ensures Ok(r.state)
  {
    match c
    case RegisterProvider(_, _, _, _, _, _, _, _) => DoRegisterProvider(b, st, c)
    case Heartbeat(_, _, _, _, _) => DoHeartbeat(b, st, c)
    case ListProviders(_, _, _) => DoListProviders(b, st, c)
    case CreateSession(_, _, _, _, _, _, _, _, _, _, _) => DoCreateSession(b, st, c)
    case GetSession(_) => DoGetSession(b, st, c)
    case TerminateSession(_, _, _) => DoTerminateSession(b, st, c)
    case ListProviderSessions(_, _) => DoListProviderSessions(st, c)
    case UpdateSessionStatus(_, _, _, _, _, _, _, _) => DoUpdateSessionStatus(b, st, c)
    case ReportConnectionResult(_, _, _) => DoReportConnectionResult(b, st, c)
  }

  ghost function Next(b: Backend, st: State, c: Call): (r: State)
    requires Ok(st)
    ensures Ok(r)
  {
    if c.ExchangeCandidates? then DoExchangeCandidates(b, st, c) else Handle(b, st, c).state
  }

  ghost predicate Answers(b: Backend, st: State, c: Call, reply: Reply)
    requires Ok(st)
  {
    if c.ExchangeCandidates? then ExchangeReply(b, st, c, reply) else reply == Handle(b, st, c).reply
  }

  /** The calls that may change session records, slots or outcomes. */
  predicate OnSessions(c: Call) {
    c.CreateSession? || c.TerminateSession? || c.UpdateSessionStatus? || c.ReportConnectionResult?
  }

  lemma OthersLeaveSessions(b: Backend, st: State, c: Call)
    requires Ok(st) && !OnSessions(c)
    ensures Next(b, st, c).db.sessions == st.db.sessions && Next(b, st, c).slots == st.slots
    ensures Next(b, st, c).outcomes == st.outcomes
    ensures !c.ExchangeCandidates? ==> Next(b, st, c).candidates == st.candidates
  {
  }

  /** The state after a run of calls. */
  ghost function Run(b: Backend, st: State, calls: seq<Call>): (r: State)
    requires Ok(st)
    ensures Ok(r)
    decreases |calls|
  {
    if calls == [] then st
    else Run(b, Next(b, st, calls[0]), calls[1..])
  }

  lemma RunFirst(b: Backend, st: State, first: Call, rest: seq<Call>)
    requires Ok(st)
    ensures Run(b, st, [first] + rest) == Run(b, Next(b, st, first), rest)
  {
    assert ([first] + rest)[1..] == rest;
  }

  /** A run is its last call after the others. */
  lemma {:induction false} RunLast(b: Backend, st: State, calls: seq<Call>)
    requires Ok(st) && calls != []
    ensures Run(b, st, calls) == Next(b, Run(b, st, calls[..|calls| - 1]), calls[|calls| - 1])
    decreases |calls|
  {
    var first, rest := calls[0], calls[1..];
    RunFirst(b, st, first, rest);
    assert calls == [first] + rest;
    if rest == [] {
      assert calls[..0] == [];
    } else {
      RunLast(b, Next(b, st, first), rest);
      RunFirst(b, st, first, rest[..|rest| - 1]);
      assert calls[..|calls| - 1] == [first] + rest[..|rest| - 1];
    }
  }
}
