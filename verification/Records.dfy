/** The records of the registry and the tables that hold them. */
module Records {
  import opened PrefixLookup

  datatype Provider = Provider(
    id: string,
    name: string,
    address: string,
    publicAddress: string,
    status: string,
    cpuCores: nat,
    memoryMB: nat,
    diskGB: nat,
    gpuCount: nat,
    gpuModel: string,
    availCPU: nat,
    availMemoryMB: nat,
    availGPU: nat,
    registeredAt: int,
    lastHeartbeat: int)

  datatype Session = Session(
    id: string,
    providerID: string,
    renterID: string,
    image: string,
    status: string,
    containerID: string,
    sshEndpoint: string,
    connectionMode: string,
    relayToken: string,
    wgPublicKey: string,
    wgEndpoint: string,
    wgProviderIP: string,
    wgRenterIP: string,
    cpuCores: nat,
    memoryMB: nat,
    createdAt: int,
    terminatedAt: int)

  datatype ProviderFilter = ProviderFilter(minCPU: nat, minMemory: nat, minGPU: nat, status: string)
  datatype SessionFilter = SessionFilter(providerID: string, renterID: string, status: string)

  predicate SelectsProvider(f: ProviderFilter, p: Provider) {
    && (f.status == "" || p.status == f.status)
    && (f.minCPU == 0 || p.availCPU >= f.minCPU)
    && (f.minMemory == 0 || p.availMemoryMB >= f.minMemory)
    && (f.minGPU == 0 || p.availGPU >= f.minGPU)
  }

  predicate SelectsSession(f: SessionFilter, s: Session) {
    && (f.providerID == "" || s.providerID == f.providerID)
    && (f.renterID == "" || s.renterID == f.renterID)
    && (f.status == "" || s.status == f.status)
  }

  /** The contents of a store. */
  datatype DB = DB(providers: map<string, Provider>, sessions: map<string, Session>)

  const EMPTY_DB := DB(map[], map[])

  ghost predicate Keyed(db: DB) {
    && (forall id :: id in db.providers ==> db.providers[id].id == id)
    && (forall id :: id in db.sessions ==> db.sessions[id].id == id)
  }

  /** Which of the two stores the registry runs on: the one that shares its records with its callers, or
      the one that copies them to and from table rows. */
  datatype Backend = Memory | Postgres

  // ---- Writing ----

  /** `ON CONFLICT (id) DO UPDATE` of a provider row. */
  function MergeProvider(row: Provider, p: Provider): Provider {
    row.(name := p.name, address := p.address, publicAddress := p.publicAddress,
         status := p.status, cpuCores := p.cpuCores, memoryMB := p.memoryMB,
         diskGB := p.diskGB, gpuCount := p.gpuCount, gpuModel := p.gpuModel,
         availCPU := p.availCPU, availMemoryMB := p.availMemoryMB,
         availGPU := p.availGPU, lastHeartbeat := p.lastHeartbeat)
  }

  /** `ON CONFLICT (id) DO UPDATE` of a session row. */
  function MergeSession(row: Session, s: Session): Session {
    row.(status := s.status, containerID := s.containerID,
         sshEndpoint := s.sshEndpoint, connectionMode := s.connectionMode,
         wgPublicKey := s.wgPublicKey, wgEndpoint := s.wgEndpoint,
         wgProviderIP := s.wgProviderIP, wgRenterIP := s.wgRenterIP,
         terminatedAt := s.terminatedAt)
  }

  /** `failing` are the IDs whose row the database fails to write during the call; memory never fails. */
  predicate WriteFails(b: Backend, id: string, failing: set<string>) {
    b.Postgres? && id in failing
  }

  function StoreProvider(b: Backend, db: DB, p: Provider, failing: set<string>): (r: DB)
    ensures Keyed(db) ==> Keyed(r)
    ensures r.sessions == db.sessions
  {
    if WriteFails(b, p.id, failing) then db
    else if b.Postgres? && p.id in db.providers then
      db.(providers := db.providers[p.id := MergeProvider(db.providers[p.id], p)])
    else
      db.(providers := db.providers[p.id := p])
  }

  function StoreSession(b: Backend, db: DB, s: Session, failing: set<string>): (r: DB)
    ensures Keyed(db) ==> Keyed(r)
    ensures r.providers == db.providers
  {
    if WriteFails(b, s.id, failing) then db
    else if b.Postgres? && s.id in db.sessions then
      db.(sessions := db.sessions[s.id := MergeSession(db.sessions[s.id], s)])
    else
      db.(sessions := db.sessions[s.id := s])
  }

  /** What editing a record in hand does to the store, before it is written back. */
  function EditProvider(b: Backend, db: DB, p: Provider): (r: DB)
    ensures Keyed(db) ==> Keyed(r)
    ensures r.sessions == db.sessions
  {
    if b.Memory? then db.(providers := db.providers[p.id := p]) else db
  }

  function EditSession(b: Backend, db: DB, s: Session): (r: DB)
    ensures Keyed(db) ==> Keyed(r)
    ensures r.providers == db.providers
  {
    if b.Memory? then db.(sessions := db.sessions[s.id := s]) else db
  }

  function StoreHeartbeat(b: Backend, db: DB, id: string, now: int, failing: set<string>): (r: DB)
    ensures Keyed(db) ==> Keyed(r)
    ensures r.sessions == db.sessions
  {
    if WriteFails(b, id, failing) || id !in db.providers then db
    else db.(providers := db.providers[id := db.providers[id].(lastHeartbeat := now, status := "online")])
  }

  /** The row of a session after a record in hand was edited and written back. */
  function RowAfter(b: Backend, row: Session, s: Session, failing: set<string>): Session {
    if b.Memory? then s else if s.id in failing then row else MergeSession(row, s)
  }

  function WriteBack(b: Backend, db: DB, s: Session, failing: set<string>): (r: DB)
    requires s.id in db.sessions
    ensures Keyed(db) ==> Keyed(r)
    ensures r == db.(sessions := db.sessions[s.id := RowAfter(b, db.sessions[s.id], s, failing)])
  {
    var r := StoreSession(b, EditSession(b, db, s), s, failing);
    assert r.sessions == db.sessions[s.id := RowAfter(b, db.sessions[s.id], s, failing)];
    r
  }

  // ---- Reading ----

  ghost function Resolve(b: Backend, ids: set<string>, prefix: string): Lookup<string> {
    if b.Memory? then ByPrefix(ids, prefix) else ByLike(ids, prefix)
  }

  predicate EndedAt(s: Session, providerID: string) {
    s.providerID == providerID && s.status == "terminated"
  }

  ghost function TerminatedIDs(db: DB, ids: set<string>, providerID: string): set<string> {
    set id | id in ids && id in db.sessions && EndedAt(db.sessions[id], providerID)
  }

  ghost function SelectedSessions(db: DB, f: SessionFilter): set<Session> {
    set id | id in db.sessions && SelectsSession(f, db.sessions[id]) :: db.sessions[id]
  }

  lemma ResolveIn(b: Backend, ids: set<string>, prefix: string)
    ensures Resolve(b, ids, prefix).Found? ==> Resolve(b, ids, prefix).value in ids
  {
    FoundIsIn(ids, prefix);
  }

  /** Every record has the frozen columns of the row it would overwrite: then an upsert stores the record. */
  lemma UpsertStoresRecord(db: DB, s: Session, p: Provider)
    requires s.id in db.sessions ==>
               var row := db.sessions[s.id];
               (row.id, row.providerID, row.renterID, row.image, row.relayToken, row.cpuCores, row.memoryMB,
                row.createdAt)
               == (s.id, s.providerID, s.renterID, s.image, s.relayToken, s.cpuCores, s.memoryMB, s.createdAt)
    requires p.id in db.providers ==> db.providers[p.id].id == p.id && db.providers[p.id].registeredAt == p.registeredAt
    ensures StoreSession(Postgres, db, s, {}) == StoreSession(Memory, db, s, {})
    ensures StoreProvider(Postgres, db, p, {}) == StoreProvider(Memory, db, p, {})
  {
  }
}
