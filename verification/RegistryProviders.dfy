/** Provider records of the registry over whole runs: who is online, who is listed, and what a heartbeat is answered. */
module RegistryProviders {
  import opened Text
  import opened Histories
  import opened PrefixLookup
  import opened Records
  import opened Registry
  import opened RegistryColumns
  import opened RegistryRecords

  // ---- One call ----

  /** The database fails to write the provider's row during the call. */
  predicate RowFails(b: Backend, c: Call, id: string)
    requires c.RegisterProvider? || c.Heartbeat? || c.ListProviders?
  {
    b == Postgres && id in c.failing
  }

  /** The provider registers again under its ID. */
  predicate Reregisters(b: Backend, c: Call, id: string) {
    c.RegisterProvider? && c.existingID == id && id != "" && !RowFails(b, c, id)
  }

  ghost predicate Beats(b: Backend, st: State, c: Call, id: string) {
    c.Heartbeat? && Resolve(b, st.db.providers.Keys, c.provider) == Found(id) && !RowFails(b, c, id)
  }

  /** A listing asks for providers like this one. */
  predicate AskedFor(f: ProviderFilter, p: Provider) {
    && (f.status == "" || f.status == p.status)
    && p.availCPU >= f.minCPU && p.availMemoryMB >= f.minMemory && p.availGPU >= f.minGPU
  }

  /** A listing that asks for a provider silent for more than 30 seconds marks it offline. */
  predicate MarksOffline(b: Backend, st: State, c: Call, id: string)
    requires id in st.db.providers
  {
    && c.ListProviders? && AskedFor(c.filter, st.db.providers[id])
    && c.now - st.db.providers[id].lastHeartbeat > 30 && !RowFails(b, c, id)
  }

  ghost function HeartbeatWrites(b: Backend, st: State, c: Call, id: string): Option<int> {
    if Reregisters(b, c, id) || Beats(b, st, c, id) then Some(c.now) else None
  }

  ghost function StatusWrites(b: Backend, st: State, c: Call, id: string): Option<string>
    requires id in st.db.providers
  {
    if Reregisters(b, c, id) || Beats(b, st, c, id) then Some("online")
    else if MarksOffline(b, st, c, id) then Some("offline")
    else None
  }

  /** What is on offer at the provider, and what of it is free. */
  function Offered(p: Provider): (string, string, Capacity) {
    (p.name, p.address, Capacity(p.cpuCores, p.memoryMB, p.diskGB, p.gpuCount, p.gpuModel))
  }

  function Free(p: Provider): Available {
    Available(p.availCPU, p.availMemoryMB, p.availGPU)
  }

  ghost function OfferedAfter(b: Backend, st: State, c: Call, id: string): (string, string, Capacity)
    requires id in st.db.providers
  {
    if Reregisters(b, c, id) then (c.name, c.address, c.capacity) else Offered(st.db.providers[id])
  }

  ghost function FreeAfter(b: Backend, st: State, c: Call, id: string): Available
    requires id in st.db.providers
  {
    if Reregisters(b, c, id) then Available(c.capacity.cpuCores, c.capacity.memoryMB, c.capacity.gpuCount)
    else if Beats(b, st, c, id) && c.available.Some? then c.available.value
    else Free(st.db.providers[id])
  }

  /** Every column of `id` is as the call leaves it. */
  ghost predicate ProviderIs(b: Backend, st: State, c: Call, id: string, r: State) {
    && id in st.db.providers && id in r.db.providers
    && var p, q := st.db.providers[id], r.db.providers[id];
    && q.id == p.id && q.publicAddress == p.publicAddress && q.registeredAt == p.registeredAt
    && Offered(q) == OfferedAfter(b, st, c, id)
    && Free(q) == FreeAfter(b, st, c, id)
    && (var w := HeartbeatWrites(b, st, c, id); q.lastHeartbeat == if w.Some? then w.value else p.lastHeartbeat)
    && (var w := StatusWrites(b, st, c, id); q.status == if w.Some? then w.value else p.status)
  }

  /** A record that a call neither renews nor marks. */
  lemma Untouched(b: Backend, st: State, c: Call, id: string, r: State)
    requires id in st.db.providers && id in r.db.providers && r.db.providers[id] == st.db.providers[id]
    requires !Reregisters(b, c, id) && !Beats(b, st, c, id) && !MarksOffline(b, st, c, id)
    ensures ProviderIs(b, st, c, id, r)
  {
  }

  lemma RegisterLeaves(b: Backend, st: State, c: Call, id: string)
    requires Ok(st) && id in st.db.providers && c.RegisterProvider? && c.freshID != id
    ensures ProviderIs(b, st, c, id, DoRegisterProvider(b, st, c).state)
  {
  }

  lemma HeartbeatLeaves(b: Backend, st: State, c: Call, id: string)
    requires Ok(st) && id in st.db.providers && c.Heartbeat?
    ensures ProviderIs(b, st, c, id, DoHeartbeat(b, st, c).state)
  {
    ResolveIn(b, st.db.providers.Keys, c.provider);
    var found := Resolve(b, st.db.providers.Keys, c.provider);
    if found == Found(id) {
      BeatLeaves(b, st, c, id);
    } else {
      Untouched(b, st, c, id, DoHeartbeat(b, st, c).state);
    }
  }

  lemma BeatLeaves(b: Backend, st: State, c: Call, id: string)
    requires Ok(st) && id in st.db.providers && c.Heartbeat?
    requires Resolve(b, st.db.providers.Keys, c.provider) == Found(id)
    ensures ProviderIs(b, st, c, id, HeartbeatOf(b, st, c, st.db.providers[id]).state)
  {
  }

  lemma ListLeaves(b: Backend, st: State, c: Call, id: string)
    requires Ok(st) && id in st.db.providers && c.ListProviders?
    ensures ProviderIs(b, st, c, id, DoListProviders(b, st, c).state)
  {
  }

  lemma SessionCallsLeave(b: Backend, st: State, c: Call, id: string)
    requires Ok(st) && id in st.db.providers && !c.RegisterProvider? && !c.Heartbeat? && !c.ListProviders?
    ensures Next(b, st, c).db.providers == st.db.providers
    ensures ProviderIs(b, st, c, id, Next(b, st, c))
  {
    assert Next(b, st, c).db.providers == st.db.providers;
    Untouched(b, st, c, id, Next(b, st, c));
  }

  /** Every call leaves each provider's record so: registering again renews everything but its origin, a heartbeat its
      time and what it reports as free, and both put it online; only a listing that asks for it after more than 30
      seconds of silence takes it offline. */
  lemma ProviderAfter(b: Backend, st: State, c: Call, id: string)
    requires Ok(st) && id in st.db.providers && (c.RegisterProvider? ==> c.freshID != id)
    ensures ProviderIs(b, st, c, id, Next(b, st, c))
  {
    if c.RegisterProvider? {
      RegisterLeaves(b, st, c, id);
    } else if c.Heartbeat? {
      HeartbeatLeaves(b, st, c, id);
    } else if c.ListProviders? {
      ListLeaves(b, st, c, id);
    } else {
      SessionCallsLeave(b, st, c, id);
    }
  }

  /** A provider that the registry does not know is stored under the ID made up for it, online, with all it has free. */
  lemma NewlyRegistered(b: Backend, st: State, c: Call)
    requires Ok(st) && c.RegisterProvider? && (c.existingID == "" || c.existingID !in st.db.providers)
    requires c.freshID !in st.db.providers
    ensures var r := Handle(b, st, c);
            if RowFails(b, c, c.freshID) then r == Result(st, Failed(Internal))
            else
              && r.state.db.providers.Keys == st.db.providers.Keys + {c.freshID}
              && var p := r.state.db.providers[c.freshID];
              && p.id == c.freshID && p.publicAddress == "" && p.status == "online"
              && Offered(p) == (c.name, c.address, c.capacity)
              && Free(p) == Available(c.capacity.cpuCores, c.capacity.memoryMB, c.capacity.gpuCount)
              && p.registeredAt == c.now && p.lastHeartbeat == c.now
              && r.reply == if c.hookOk then Registered(p) else Failed(Internal)
  {
  }

  // ---- Answers ----

  /** A provider that registers again is answered with its stored record, unless the write or the plugin fails. */
  lemma RegisteredAgain(b: Backend, st: State, c: Call)
    requires Ok(st) && c.RegisterProvider? && c.existingID != "" && c.existingID in st.db.providers
    ensures var r := Handle(b, st, c);
            && c.existingID in r.state.db.providers
            && r.reply == if RowFails(b, c, c.existingID) || !c.hookOk then Failed(Internal)
                          else Registered(r.state.db.providers[c.existingID])
  {
  }

  /** A listing answers with exactly the providers it asks for that are online and were heard from within 30 seconds. */
  lemma ListedIff(b: Backend, st: State, c: Call, p: Provider)
    requires Ok(st) && c.ListProviders?
    ensures Handle(b, st, c).reply.Providers?
    ensures p in Handle(b, st, c).reply.providers <==>
            && p.id in st.db.providers && st.db.providers[p.id] == p
            && p.status == "online" && c.now - p.lastHeartbeat <= 30 && AskedFor(c.filter, p)
  {
  }

  /** A heartbeat is answered with exactly those of the sessions it reports that are the provider's and have ended. */
  lemma HeartbeatAnswer(b: Backend, st: State, c: Call, id: string, x: string)
    requires Ok(st) && c.Heartbeat? && Resolve(b, st.db.providers.Keys, c.provider) == Found(id)
    ensures var reply := Handle(b, st, c).reply;
            if RowFails(b, c, id) then reply == Failed(Internal)
            else
              && reply.Acknowledged?
              && (x in reply.terminate <==>
                    && x in c.active && x in st.db.sessions
                    && st.db.sessions[x].providerID == id && st.db.sessions[x].status == "terminated")
  {
    ResolveIn(b, st.db.providers.Keys, c.provider);
  }

  // ---- Runs ----

  ghost predicate NeverAnew(calls: seq<Call>, id: string) {
    forall i :: 0 <= i < |calls| && calls[i].RegisterProvider? ==> calls[i].freshID != id
  }

  /** When the provider was heard from, for each call of a run. */
  ghost function HeartbeatLog(b: Backend, st: State, calls: seq<Call>, id: string): (log: seq<Option<int>>)
    requires Ok(st)
    ensures |log| == |calls|
    ensures forall i :: 0 <= i < |calls| ==> log[i] == HeartbeatWrites(b, Run(b, st, calls[..i]), calls[i], id)
  {
    seq(|calls|, i requires 0 <= i < |calls| => HeartbeatWrites(b, Run(b, st, calls[..i]), calls[i], id))
  }

  lemma HeartbeatLogGrows(b: Backend, st: State, calls: seq<Call>, id: string)
    requires Ok(st) && calls != []
    ensures var front, last := calls[..|calls| - 1], calls[|calls| - 1];
            HeartbeatLog(b, st, calls, id)
            == HeartbeatLog(b, st, front, id) + [HeartbeatWrites(b, Run(b, st, front), last, id)]
  {
    var front := calls[..|calls| - 1];
    forall i | 0 <= i < |front| ensures front[..i] == calls[..i] {
    }
  }

  /** In every run a provider's last heartbeat is the last time it registered again or sent a heartbeat. */
  lemma {:induction false} HeardFromLast(b: Backend, st: State, calls: seq<Call>, id: string)
    requires Ok(st) && id in st.db.providers && NeverAnew(calls, id)
    ensures var r := Run(b, st, calls).db.providers;
            && id in r
            && LastWritten(HeartbeatLog(b, st, calls, id), st.db.providers[id].lastHeartbeat, r[id].lastHeartbeat)
    decreases |calls|
  {
    if calls != [] {
      var front, last := calls[..|calls| - 1], calls[|calls| - 1];
      var before := Run(b, st, front);
      RunLast(b, st, calls);
      HeardFromLast(b, st, front, id);
      ProviderAfter(b, before, last, id);
      HeartbeatLogGrows(b, st, calls, id);
      OneMoreWrite(HeartbeatLog(b, st, front, id), st.db.providers[id].lastHeartbeat,
                   before.db.providers[id].lastHeartbeat, HeartbeatWrites(b, before, last, id));
    }
  }

  /** In every run a provider goes offline only by a listing more than 30 seconds after it was last heard from. */
  lemma OfflineOnlyAfterSilence(b: Backend, st: State, calls: seq<Call>, c: Call, id: string) returns (heard: int)
    requires Ok(st) && id in st.db.providers && NeverAnew(calls, id) && (c.RegisterProvider? ==> c.freshID != id)
    requires id in Run(b, st, calls).db.providers && Run(b, st, calls).db.providers[id].status != "offline"
    ensures id in Next(b, Run(b, st, calls), c).db.providers
    ensures LastWritten(HeartbeatLog(b, st, calls, id), st.db.providers[id].lastHeartbeat, heard)
    ensures Next(b, Run(b, st, calls), c).db.providers[id].status == "offline" ==>
              c.ListProviders? && c.now - heard > 30
  {
    var before := Run(b, st, calls);
    HeardFromLast(b, st, calls, id);
    ProviderAfter(b, before, c, id);
    heard := before.db.providers[id].lastHeartbeat;
  }

  /** Over a run in which a session of the provider begins alive, a heartbeat that reports it is told to end it exactly
      if the last call that set the session's status ended it. */
  lemma ToldToEndIff(b: Backend, st: State, calls: seq<Call>, c: Call, id: string, x: string)
    requires Ok(st) && x in st.db.sessions && st.db.sessions[x].status != "terminated" && NeverMadeUp(calls, x)
    requires c.Heartbeat? && Resolve(b, Run(b, st, calls).db.providers.Keys, c.provider) == Found(id)
    requires !RowFails(b, c, id) && x in c.active && st.db.sessions[x].providerID == id
    ensures var reply := Handle(b, Run(b, st, calls), c).reply;
            && reply.Acknowledged?
            && (x in reply.terminate <==>
                  LastWritten(Log(b, st, calls, x, Status), st.db.sessions[x].status, "terminated"))
  {
    ColumnIsLastWritten(b, st, calls, x, Status);
    HeartbeatAnswer(b, Run(b, st, calls), c, id, x);
    var now := Run(b, st, calls).db.sessions[x].status;
    if LastWritten(Log(b, st, calls, x, Status), st.db.sessions[x].status, "terminated") {
      LastIsUnique(Log(b, st, calls, x, Status), st.db.sessions[x].status, now, "terminated");
    }
  }
}
