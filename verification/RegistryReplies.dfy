/** What the registry's calls on sessions answer, by what a caller can check beforehand. */
module RegistryReplies {
  import opened Text
  import opened Tunnel
  import opened Records
  import opened Registry

  predicate OnOne(c: Call) {
    c.GetSession? || c.TerminateSession? || c.UpdateSessionStatus? || c.ReportConnectionResult?
  }

  /** The call is refused: a session begins to run without an endpoint. */
  predicate NoEndpoint(c: Call) {
    c.UpdateSessionStatus? && c.status == "running" && c.wgEndpoint == ""
  }

  predicate RowFails(b: Backend, c: Call, id: string) {
    b == Postgres && !c.GetSession? && OnOne(c) && id in c.failing
  }

  /** A call on one session fails exactly if no session is named, or more than one, or its update is refused, or its row
      cannot be written; else a lookup answers with the session, and a change that it is done. */
  lemma OneSessionReplies(b: Backend, st: State, c: Call)
    requires Ok(st) && OnOne(c)
    ensures var found, reply := Resolve(b, st.db.sessions.Keys, c.session), Handle(b, st, c).reply;
            match found
            case NotFound => reply == Failed(NotFoundCode)
            case Ambiguous => reply == Failed(InvalidArgument)
            case Found(id) =>
              && id in st.db.sessions
              && reply == if c.GetSession? then OneSession(st.db.sessions[id])
                          else if NoEndpoint(c) then Failed(FailedPrecondition)
                          else if RowFails(b, c, id) then Failed(Internal)
                          else Done
  {
    ResolveIn(b, st.db.sessions.Keys, c.session);
  }

  /** Calls that only look change nothing, and no call on one session changes anything if none is named. */
  lemma LookupsChangeNothing(b: Backend, st: State, c: Call)
    requires Ok(st)
    requires || c.GetSession? || c.ListProviderSessions?
             || (OnOne(c) && !Resolve(b, st.db.sessions.Keys, c.session).Found?)
    ensures Next(b, st, c) == st
  {
  }

  /** A list of a provider's sessions holds exactly those of the status asked for, or all of its sessions. */
  lemma ListedSessions(b: Backend, st: State, c: Call, s: Session)
    requires Ok(st) && c.ListProviderSessions?
    ensures Handle(b, st, c).reply.Sessions?
    ensures s in Handle(b, st, c).reply.sessions <==>
            && s.id in st.db.sessions && st.db.sessions[s.id] == s
            && (c.providerID == "" || s.providerID == c.providerID)
            && (c.statusFilter == "" || s.status == c.statusFilter)
  {
  }

  /** An exchange answers with the relay token of the session it names, and stores what was offered. */
  lemma ExchangeReplies(b: Backend, st: State, c: Call, reply: Reply)
    requires Ok(st) && c.ExchangeCandidates? && Answers(b, st, c, reply)
    ensures match Resolve(b, st.db.sessions.Keys, c.session)
            case NotFound => reply == Failed(NotFoundCode) && Next(b, st, c) == st
            case Ambiguous => reply == Failed(InvalidArgument) && Next(b, st, c) == st
            case Found(id) =>
              && id in st.db.sessions && reply.Exchanged? && reply.relayToken == st.db.sessions[id].relayToken
              && (var cs := Next(b, st, c).candidates; id in cs && c.peerID in cs[id] && cs[id][c.peerID] == c.offer)
              && (id in st.candidates ==> forall p :: p in st.candidates[id] && p != c.peerID ==>
                    p in Next(b, st, c).candidates[id] && Next(b, st, c).candidates[id][p] == st.candidates[id][p])
  {
    ResolveIn(b, st.db.sessions.Keys, c.session);
  }

  // ---- Creation ----

  predicate KeyMissing(c: Call) {
    c.CreateSession? && c.networkPolicy == "wireguard_required" && c.wgPublicKey == ""
  }

  /** Why a session is not created, in the order the reasons are looked for. */
  ghost function Refusal(b: Backend, st: State, c: Call): Option<Code>
    requires c.CreateSession?
  {
    if KeyMissing(c) then Some(InvalidArgument)
    else
      match Resolve(b, st.db.providers.Keys, c.provider)
      case NotFound => Some(NotFoundCode)
      case Ambiguous => Some(InvalidArgument)
      case Found(p) =>
        if p in st.db.providers && st.db.providers[p].status != "online" then Some(Unavailable)
        else if !c.reputable then Some(Unavailable)
        else if |st.slots.owners| >= 7112 then Some(ResourceExhausted)
        else if b == Postgres && c.freshID in c.failing then Some(Internal)
        else None
  }

  /** The record a creation makes. */
  predicate IsCreated(c: Call, providerID: string, idx: TunnelIndex, s: Session)
    requires c.CreateSession?
  {
    && s.id == c.freshID && s.providerID == providerID && s.renterID == c.renterID && s.image == c.image
    && s.status == "pending" && s.containerID == "" && s.sshEndpoint == "" && s.connectionMode == ""
    && s.relayToken == c.freshToken && s.wgPublicKey == "" && s.wgEndpoint == ""
    && Split(s.wgProviderIP, '.') == ["10", Decimal(idx.major), Decimal(idx.minor), "1"]
    && Split(s.wgRenterIP, '.') == ["10", Decimal(idx.major), Decimal(idx.minor), "2"]
    && (c.requested.None? ==> s.cpuCores == 0 && s.memoryMB == 0)
    && (c.requested.Some? ==> s.cpuCores == c.requested.value.cpuCores && s.memoryMB == c.requested.value.memoryMB)
    && s.createdAt == c.now && s.terminatedAt == 0
  }

  /** The session is stored, answered with, and holds the slot whose addresses it has. */
  ghost predicate Stores(st: State, c: Call, providerID: string, r: Result)
    requires c.CreateSession?
  {
    && r.reply.OneSession? && c.freshID in r.state.slots.idxs
    && r.state.db.sessions == st.db.sessions[c.freshID := r.reply.session]
    && IsCreated(c, providerID, r.state.slots.idxs[c.freshID], r.reply.session)
  }

  lemma CreatedReplies(b: Backend, st: State, c: Call, providerID: string)
    requires Ok(st) && c.CreateSession? && c.freshID !in st.db.sessions
    ensures var r := Created(b, st, c, providerID);
            if |st.slots.owners| >= 7112 then r == Result(st, Failed(ResourceExhausted))
            else if b == Postgres && c.freshID in c.failing then r.reply == Failed(Internal) && r.state.db == st.db
            else Stores(st, c, providerID, r)
  {
    if !Full(st.slots) {
      SlotAddresses(NextSlot(st.slots));
    }
  }

  /** A creation either fails for one of these reasons and stores no record, or answers with the record it stores,
      pending, under the ID and with the token made up for it, and with the addresses of the slot it now holds. */
  lemma CreateReplies(b: Backend, st: State, c: Call)
    requires Ok(st) && c.CreateSession? && c.freshID !in st.db.sessions
    ensures var r, why := Handle(b, st, c), Refusal(b, st, c);
            if why.Some? then r.reply == Failed(why.value) && r.state.db == st.db
            else
              && Resolve(b, st.db.providers.Keys, c.provider).Found?
              && Stores(st, c, Resolve(b, st.db.providers.Keys, c.provider).value, r)
  {
    ResolveIn(b, st.db.providers.Keys, c.provider);
    var found := Resolve(b, st.db.providers.Keys, c.provider);
    if found.Found? {
      CreatedReplies(b, st, c, found.value);
    }
  }
}
