/** The registry server: the handlers of its remote calls, changing records, slots and candidates in place. */
module RegistryServer {
  import opened Text
  import opened Heap
  import opened Tunnel
  import opened Records
  import opened Stores
  import opened Registry

  /** The loop over a session's candidate sets, which stops at the first peer that is not the caller. */
  method SomeOther(peers: map<string, CandidateSet>, caller: string) returns (r: Option<CandidateSet>)
    ensures IsSomeOther(peers, caller, r)
  {
    var todo := peers.Keys;
    while todo != {}
      invariant todo <= peers.Keys
      invariant forall p :: p in peers && p !in todo ==> p == caller
    {
      var p :| p in todo;
      todo := todo - {p};
      if p != caller {
        return Some(peers[p]);
      }
    }
    r := None;
  }

  lemma MarkOneMore(b: Backend, ps: map<string, Provider>, ss: map<string, Session>, visited: set<string>,
                    id: string, now: int, failing: set<string>)
    requires id in ps && id !in visited && ps[id].id == id
    ensures var marked, rec := DB(MarkStale(b, ps, visited, now, failing), ss), ps[id].(status := "offline");
            var next := MarkStale(b, ps, visited + {id}, now, failing);
            if Stale(ps[id], now)
            then StoreProvider(b, EditProvider(b, marked, rec), rec, failing) == marked.(providers := next)
            else next == marked.providers
    ensures Fresh(ps, visited + {id}, now) ==
            Fresh(ps, visited, now) + if !Stale(ps[id], now) && ps[id].status == "online" then {ps[id]} else {}
  {
    var marked, rec := DB(MarkStale(b, ps, visited, now, failing), ss), ps[id].(status := "offline");
    var next := MarkStale(b, ps, visited + {id}, now, failing);
    if Stale(ps[id], now) {
      assert StoreProvider(b, EditProvider(b, marked, rec), rec, failing).providers == next;
    }
  }

  class Server {
    const store: Store
    const tunnels: TunnelAllocator
    var candidates: map<string, map<string, CandidateSet>>
    /** The session IDs passed to `RecordOutcome` so far. */
    var outcomes: seq<string>
    /** The calls made to the relay so far. */
    var relayCalls: seq<RelayCall>

    constructor (backend: Backend)
      ensures Valid() && View() == START && store.backend == backend
    {
      store := new Store(backend);
      tunnels := new TunnelAllocator();
      candidates := map[];
      outcomes := [];
      relayCalls := [];
    }

    ghost function View(): State
      reads this, tunnels, store.mem, store.pg, store.mem.providers.Values, store.mem.sessions.Values
      ensures Valid() ==> Ok(View())
    {
      State(store.View(), tunnels.View(), candidates, outcomes, relayCalls)
    }

    ghost predicate Valid()
      reads this, tunnels, store.mem, store.pg, store.mem.providers.Values, store.mem.sessions.Values
    {
      store.Valid() && SlotsOk(tunnels.View())
    }

    method GetSession(c: Call) returns (reply: Reply)
      requires Valid() && c.GetSession?
      ensures Result(View(), reply) == Handle(store.backend, View(), c)
    {
      var r := store.GetSessionByPrefix(c.session);
      match r {
        case NotFound => reply := Failed(NotFoundCode);
        case Ambiguous => reply := Failed(InvalidArgument);
        case Found(rec) => reply := OneSession(rec.v);
      }
    }

    method ListProviderSessions(c: Call) returns (reply: Reply)
      requires Valid() && c.ListProviderSessions?
      ensures Result(View(), reply) == Handle(store.backend, View(), c)
    {
      var out := store.ListSessions(SessionFilter(c.providerID, "", c.statusFilter));
      reply := Sessions(out);
    }

    method TerminateSession(c: Call) returns (reply: Reply)
      requires Valid() && c.TerminateSession?
      modifies this, tunnels, store.mem, store.pg, store.mem.sessions.Values
      ensures Valid()
      ensures Result(View(), reply) == Handle(store.backend, old(View()), c)
    {
      var r := store.GetSessionByPrefix(c.session);
      match r {
        case NotFound => reply := Failed(NotFoundCode);
        case Ambiguous => reply := Failed(InvalidArgument);
        case Found(rec) =>
          reply := Terminate(c, rec);
      }
    }

    method Terminate(c: Call, rec: Ref<Session>) returns (reply: Reply)
      requires Valid() && c.TerminateSession?
      requires store.HasSession(rec) && rec.v.id in store.View().sessions && store.View().sessions[rec.v.id] == rec.v
      modifies this, tunnels, rec, store.mem, store.pg
      ensures Valid()
      ensures Result(View(), reply) == TerminateOf(store.backend, old(View()), c, old(rec.v))
    {
      var ended := rec.v.(status := "terminated", terminatedAt := c.now);
      var ok := store.WriteSession(rec, ended, c.failing);
      if !ok {
        return Failed(Internal);
      }
      CleanUp(ended);
      reply := Done;
    }

    /** What a termination does outside the store. */
    method CleanUp(s: Session)
      requires Valid()
      modifies this, tunnels
      ensures Valid()
      ensures View() == old(View()).(
                outcomes := old(outcomes) + [s.id],
                relayCalls := if s.relayToken == "" then old(relayCalls)
                              else old(relayCalls) + [InvalidateRelay(s.relayToken)],
                candidates := old(candidates) - {s.id},
                slots := Release(old(View()).slots, s.id))
    {
      RecordOutcome(s.id);
      if s.relayToken != "" {
        CallRelay(InvalidateRelay(s.relayToken));
      }
      Forget(s.id);
      Reclaim(s.id);
    }

    method RecordOutcome(id: string)
      requires Valid()
      modifies this
      ensures Valid() && View() == old(View()).(outcomes := old(outcomes) + [id])
    {
      outcomes := outcomes + [id];
    }

    method Reclaim(id: string)
      requires Valid()
      modifies tunnels
      ensures Valid() && View() == old(View()).(slots := Release(old(View()).slots, id))
    {
      tunnels.ReclaimTunnelIndex(id);
    }

    method Forget(id: string)
      requires Valid()
      modifies this
      ensures Valid() && View() == old(View()).(candidates := old(candidates) - {id})
    {
      candidates := candidates - {id};
    }

    method UpdateSessionStatus(c: Call) returns (reply: Reply)
      requires Valid() && c.UpdateSessionStatus?
      modifies this, tunnels, store.mem, store.pg, store.mem.sessions.Values
      ensures Valid()
      ensures Result(View(), reply) == Handle(store.backend, old(View()), c)
    {
      var r := store.GetSessionByPrefix(c.session);
      match r {
        case NotFound => reply := Failed(NotFoundCode);
        case Ambiguous => reply := Failed(InvalidArgument);
        case Found(rec) =>
          reply := Update(c, rec);
      }
    }

    method Update(c: Call, rec: Ref<Session>) returns (reply: Reply)
      requires Valid() && c.UpdateSessionStatus?
      requires store.HasSession(rec) && rec.v.id in store.View().sessions && store.View().sessions[rec.v.id] == rec.v
      modifies this, tunnels, rec, store.mem, store.pg
      ensures Valid()
      ensures Result(View(), reply) == UpdateOf(store.backend, old(View()), c, old(rec.v))
    {
      var updated := Updated(rec.v, c);
      if c.status == "terminated" && rec.v.status != "terminated" {
        RecordEnd(rec.v.id);
      }
      if c.status == "running" {
        if c.wgEndpoint == "" {
          store.SetSession(rec, updated);
          return Failed(FailedPrecondition);
        }
        if updated.connectionMode == "" {
          updated := updated.(connectionMode := "direct");
        }
      }
      var ok := store.WriteSession(rec, updated, c.failing);
      reply := if ok then Done else Failed(Internal);
    }

    /** What an update that ends a session does before its record is written. */
    method RecordEnd(id: string)
      requires Valid()
      modifies this, tunnels
      ensures Valid()
      ensures View() == old(View()).(outcomes := old(outcomes) + [id], slots := Release(old(View()).slots, id))
    {
      RecordOutcome(id);
      Reclaim(id);
    }

    method ReportConnectionResult(c: Call) returns (reply: Reply)
      requires Valid() && c.ReportConnectionResult?
      modifies this, store.mem, store.pg, store.mem.sessions.Values
      ensures Valid()
      ensures Result(View(), reply) == Handle(store.backend, old(View()), c)
    {
      var r := store.GetSessionByPrefix(c.session);
      match r {
        case NotFound => reply := Failed(NotFoundCode);
        case Ambiguous => reply := Failed(InvalidArgument);
        case Found(rec) =>
          reply := Report(c, rec);
      }
    }

    method Report(c: Call, rec: Ref<Session>) returns (reply: Reply)
      requires Valid() && c.ReportConnectionResult?
      requires store.HasSession(rec) && rec.v.id in store.View().sessions && store.View().sessions[rec.v.id] == rec.v
      modifies this, rec, store.mem, store.pg
      ensures Valid()
      ensures Result(View(), reply) == ReportOf(store.backend, old(View()), c, old(rec.v))
    {
      var mode := "holepunch";
      if c.useRelay {
        mode := "relay";
        CallRelay(RegisterRelay(rec.v.relayToken, rec.v.id));
      }
      var ok := store.WriteSession(rec, rec.v.(connectionMode := mode), c.failing);
      reply := if ok then Done else Failed(Internal);
    }

    method CallRelay(call: RelayCall)
      requires Valid()
      modifies this
      ensures Valid() && View() == old(View()).(relayCalls := old(relayCalls) + [call])
    {
      relayCalls := relayCalls + [call];
    }

    method AddOffer(id: string, peerID: string, offer: CandidateSet)
      requires Valid()
      modifies this
      ensures Valid() && View() == old(View()).(candidates := Submit(old(candidates), id, peerID, offer))
    {
      if id !in candidates {
        candidates := candidates[id := map[]];
      }
      candidates := candidates[id := candidates[id][peerID := offer]];
      assert candidates == Submit(old(candidates), id, peerID, offer);
    }

    method ExchangeCandidates(c: Call) returns (reply: Reply)
      requires Valid() && c.ExchangeCandidates?
      modifies this
      ensures Valid()
      ensures View() == Next(store.backend, old(View()), c)
      ensures Answers(store.backend, old(View()), c, reply)
    {
      var r := store.GetSessionByPrefix(c.session);
      match r {
        case NotFound => reply := Failed(NotFoundCode);
        case Ambiguous => reply := Failed(InvalidArgument);
        case Found(rec) =>
          var peer := Exchange(rec.v.id, c);
          reply := Exchanged(rec.v.relayToken, peer);
      }
    }

    method Exchange(id: string, c: Call) returns (peer: Option<CandidateSet>)
      requires Valid() && c.ExchangeCandidates?
      modifies this
      ensures Valid() && View() == old(View()).(candidates := Submit(old(candidates), id, c.peerID, c.offer))
      ensures IsSomeOther(Submit(old(candidates), id, c.peerID, c.offer)[id], c.peerID, peer)
    {
      AddOffer(id, c.peerID, c.offer);
      peer := SomeOther(candidates[id], c.peerID);
    }

    method Heartbeat(c: Call) returns (reply: Reply)
      requires Valid() && c.Heartbeat?
      modifies store.mem, store.pg, store.mem.providers.Values
      ensures Valid()
      ensures Result(View(), reply) == Handle(store.backend, old(View()), c)
    {
      var r := store.GetProviderByPrefix(c.provider);
      match r {
        case NotFound => reply := Failed(NotFoundCode);
        case Ambiguous => reply := Failed(InvalidArgument);
        case Found(rec) =>
          reply := Beat(c, rec);
      }
    }

    /** The full update of a provider whose resources changed, or the light one. */
    method Beat(c: Call, rec: Ref<Provider>) returns (reply: Reply)
      requires Valid() && c.Heartbeat?
      requires store.HasProvider(rec) && rec.v.id in store.View().providers && store.View().providers[rec.v.id] == rec.v
      modifies rec, store.mem, store.pg, store.mem.providers.Values
      ensures Valid()
      ensures Result(View(), reply) == HeartbeatOf(store.backend, old(View()), c, old(rec.v))
    {
      var id := rec.v.id;
      var ok := WriteBeat(c, rec);
      if !ok {
        return Failed(Internal);
      }
      var terminated := store.GetTerminatedSessionIDs(c.active, id);
      reply := Acknowledged(terminated);
    }

    method WriteBeat(c: Call, rec: Ref<Provider>) returns (ok: bool)
      requires Valid() && c.Heartbeat?
      requires store.HasProvider(rec) && rec.v.id in store.View().providers && store.View().providers[rec.v.id] == rec.v
      modifies rec, store.mem, store.pg, store.mem.providers.Values
      ensures Valid() && View() == old(View()).(db := BeatDB(store.backend, old(View()).db, old(rec.v), c))
      ensures ok == !WriteFails(store.backend, old(rec.v.id), c.failing)
    {
      match c.available {
        case Some(a) =>
          ok := store.WriteProvider(rec, WithResources(rec.v, a, c.now), c.failing);
        case None =>
          ok := store.UpdateHeartbeat(rec.v.id, c.now, c.failing);
      }
    }

    method CreateSession(c: Call) returns (reply: Reply)
      requires Valid() && c.CreateSession?
      modifies this, tunnels, store.mem, store.pg
      ensures Valid()
      ensures Result(View(), reply) == Handle(store.backend, old(View()), c)
    {
      if c.networkPolicy == "wireguard_required" && c.wgPublicKey == "" {
        return Failed(InvalidArgument);
      }
      var r := store.GetProviderByPrefix(c.provider);
      match r {
        case NotFound => reply := Failed(NotFoundCode);
        case Ambiguous => reply := Failed(InvalidArgument);
        case Found(p) =>
          if p.v.status != "online" || !c.reputable {
            return Failed(Unavailable);
          }
          reply := AllocateAndStore(c, p.v.id);
      }
    }

    /** The second half of `CreateSession`: tunnel addresses, record, renter's key. */
    method AllocateAndStore(c: Call, providerID: string) returns (reply: Reply)
      requires Valid() && c.CreateSession?
      modifies this, tunnels, store.mem, store.pg
      ensures Valid()
      ensures Result(View(), reply) == Created(store.backend, old(View()), c, providerID)
    {
      var ips := Allocate(c.freshID);
      if ips.Exhausted? {
        return Failed(ResourceExhausted);
      }
      var rec := NewSession(c, providerID, ips.providerIP, ips.renterIP);
      var ok := StoreNew(rec, c.failing);
      if !ok {
        return Failed(Internal);
      }
      OfferKey(c);
      reply := OneSession(rec);
    }

    method StoreNew(rec: Session, failing: set<string>) returns (ok: bool)
      requires Valid()
      modifies store.mem, store.pg
      ensures Valid() && View() == old(View()).(db := StoreSession(store.backend, old(View()).db, rec, failing))
      ensures ok == !WriteFails(store.backend, rec.id, failing)
    {
      var ref := new Ref(rec);
      ok := store.PutSession(ref, failing);
    }

    /** The renter's key, if it gave one, is its first offer. */
    method OfferKey(c: Call)
      requires Valid() && c.CreateSession?
      modifies this
      ensures Valid()
      ensures View() == old(View()).(candidates := if c.wgPublicKey == "" then old(candidates)
                                     else Submit(old(candidates), c.freshID, c.renterID,
                                                 CandidateSet([], c.wgPublicKey)))
    {
      if c.wgPublicKey != "" {
        AddOffer(c.freshID, c.renterID, CandidateSet([], c.wgPublicKey));
      }
    }

    method Allocate(id: string) returns (ips: Allocation)
      requires Valid()
      modifies tunnels
      ensures Valid() && View() == old(View()).(slots := Take(old(View()).slots, id))
      ensures ips == if Full(old(View()).slots) then Exhausted
                     else Allocated(ProviderIP(NextSlot(old(View()).slots)), RenterIP(NextSlot(old(View()).slots)))
    {
      ghost var slots := tunnels.View();
      FullMeansEverySlotTaken(slots);
      ghost var advances;
      ips, advances := tunnels.AllocateTunnelIPs(id);
      if ips.Allocated? {
        FirstFreeUnique(slots.owners, slots.hint, advances, ScanLength(slots));
      }
    }

    method RegisterProvider(c: Call) returns (reply: Reply)
      requires Valid() && c.RegisterProvider?
      modifies store.mem, store.pg, store.mem.providers.Values
      ensures Valid()
      ensures Result(View(), reply) == Handle(store.backend, old(View()), c)
    {
      var existing := None;
      if c.existingID != "" {
        existing := store.GetProvider(c.existingID);
      }
      match existing {
        case Some(rec) => reply := RegisterAgain(c, rec);
        case None => reply := RegisterNew(c);
      }
    }

    method RegisterAgain(c: Call, rec: Ref<Provider>) returns (reply: Reply)
      requires Valid() && c.RegisterProvider?
      requires store.HasProvider(rec) && rec.v.id in store.View().providers && store.View().providers[rec.v.id] == rec.v
      modifies rec, store.mem, store.pg
      ensures Valid()
      ensures var v := Refreshed(old(rec.v), c.name, c.address, c.capacity, c.now);
              var edited := EditProvider(store.backend, old(store.View()), v);
              Result(View(), reply) == RegisterAs(store.backend, old(View()), c, v, edited)
    {
      var ok := store.WriteProvider(rec, Refreshed(rec.v, c.name, c.address, c.capacity, c.now), c.failing);
      reply := if ok && c.hookOk then Registered(rec.v) else Failed(Internal);
    }

    method RegisterNew(c: Call) returns (reply: Reply)
      requires Valid() && c.RegisterProvider?
      modifies store.mem, store.pg
      ensures Valid()
      ensures var v := NewProvider(c.freshID, c.name, c.address, c.capacity, c.now);
              Result(View(), reply) == RegisterAs(store.backend, old(View()), c, v, old(store.View()))
    {
      var rec := new Ref(NewProvider(c.freshID, c.name, c.address, c.capacity, c.now));
      var ok := store.PutProvider(rec, c.failing);
      reply := if ok && c.hookOk then Registered(rec.v) else Failed(Internal);
    }

    /** One turn of the loop of `ListProviders`. */
    method Visit(rec: Ref<Provider>, found: set<Provider>, ghost ps: map<string, Provider>,
                 ghost ss: map<string, Session>,
                 ghost visited: set<string>, now: int, failing: set<string>) returns (out: set<Provider>)
      requires store.Valid() && store.View() == DB(MarkStale(store.backend, ps, visited, now, failing), ss)
      requires store.HasProvider(rec) && rec.v.id in ps && ps[rec.v.id] == rec.v && rec.v.id !in visited
      requires found == Fresh(ps, visited, now)
      modifies rec, store.mem, store.pg
      ensures store.Valid()
      ensures store.View() == DB(MarkStale(store.backend, ps, visited + {old(rec.v.id)}, now, failing), ss)
      ensures out == Fresh(ps, visited + {old(rec.v.id)}, now)
      ensures store.mem.providers == old(store.mem.providers) && store.mem.sessions == old(store.mem.sessions)
    {
      MarkOneMore(store.backend, ps, ss, visited, rec.v.id, now, failing);
      out := found;
      if rec.v.lastHeartbeat < now - HEARTBEAT_TIMEOUT {
        var ok := store.WriteProvider(rec, rec.v.(status := "offline"), failing);
      } else if rec.v.status == "online" {
        out := out + {rec.v};
      }
    }

    /** The loop of `ListProviders`, over the records in hand. */
    method VisitAll(records: seq<Ref<Provider>>, ghost ids: seq<string>, ghost ps: map<string, Provider>,
                    ghost ss: map<string, Session>,
                    now: int, failing: set<string>) returns (out: set<Provider>)
      requires store.Valid() && store.View() == DB(ps, ss) && |ids| == |records|
      requires forall j :: 0 <= j < |records| ==>
                ids[j] in ps && records[j].v == ps[ids[j]] && records[j].v.id == ids[j] && store.HasProvider(records[j])
      requires forall i, j :: 0 <= i < j < |records| ==> ids[i] != ids[j] && records[i] != records[j]
      modifies records, store.mem, store.pg
      ensures store.Valid()
      ensures var visited := set j | 0 <= j < |ids| :: ids[j];
              && store.View() == DB(MarkStale(store.backend, ps, visited, now, failing), ss)
              && out == Fresh(ps, visited, now)
    {
      ghost var visited: set<string> := {};
      out := {};
      assert MarkStale(store.backend, ps, {}, now, failing) == ps;
      for i := 0 to |records|
        invariant store.Valid() && store.View() == DB(MarkStale(store.backend, ps, visited, now, failing), ss)
        invariant out == Fresh(ps, visited, now)
        invariant visited == set j | 0 <= j < i :: ids[j]
        invariant forall j :: i <= j < |records| ==>
                                records[j].v.id == ids[j] && records[j].v == ps[ids[j]] && store.HasProvider(records[j])
      {
        out := Visit(records[i], out, ps, ss, visited, now, failing);
        visited := visited + {ids[i]};
      }
    }

    method ListProviders(c: Call) returns (reply: Reply)
      requires Valid() && c.ListProviders?
      modifies store.mem, store.pg, store.mem.providers.Values
      ensures Valid()
      ensures Result(View(), reply) == Handle(store.backend, old(View()), c)
    {
      ghost var ps, ss := store.View().providers, store.View().sessions;
      var records := store.ListProviders(c.filter);
      ghost var ids := seq(|records|, j requires 0 <= j < |records| reads records => records[j].v.id);
      var out := VisitAll(records, ids, ps, ss, c.now, c.failing);
      assert (set j | 0 <= j < |ids| :: ids[j]) == Selected(ps, c.filter);
      reply := Providers(out);
    }
  }
}
