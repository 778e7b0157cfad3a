/** The two stores behind the registry: one hands out pointers to its own records, the other copies of
    table rows; and the interface through which the registry uses either. */
module Stores {
  import opened Text
  import opened Heap
  import opened PrefixLookup
  import opened Records

  /** The map of shared records. */
  class MemoryStore {
    var providers: map<string, Ref<Provider>>
    var sessions: map<string, Ref<Session>>

    ghost predicate Valid()
      reads this, providers.Values, sessions.Values
    {
      && (forall id :: id in providers ==> providers[id].v.id == id)
      && (forall id :: id in sessions ==> sessions[id].v.id == id)
    }

    ghost function View(): DB
      reads this, providers.Values, sessions.Values
    {
      DB(map id | id in providers :: providers[id].v, map id | id in sessions :: sessions[id].v)
    }

    constructor ()
      ensures Valid() && View() == EMPTY_DB
    {
      providers := map[];
      sessions := map[];
    }

    method PutProvider(p: Ref<Provider>)
      requires Valid()
      modifies this
      ensures Valid() && providers == old(providers)[p.v.id := p] && sessions == old(sessions)
      ensures View() == StoreProvider(Memory, old(View()), p.v, {})
    {
      providers := providers[p.v.id := p];
      assert View().providers == old(View()).providers[p.v.id := p.v];
    }

    method PutSession(s: Ref<Session>)
      requires Valid()
      modifies this
      ensures Valid() && sessions == old(sessions)[s.v.id := s] && providers == old(providers)
      ensures View() == StoreSession(Memory, old(View()), s.v, {})
    {
      sessions := sessions[s.v.id := s];
      assert View().sessions == old(View()).sessions[s.v.id := s.v];
    }

    method UpdateHeartbeat(id: string, now: int) returns (ok: bool)
      requires Valid()
      modifies providers.Values
      ensures Valid() && providers == old(providers) && sessions == old(sessions)
      ensures ok <==> id in providers
      ensures View() == StoreHeartbeat(Memory, old(View()), id, now, {})
    {
      ok := id in providers;
      if ok {
        var p := providers[id];
        p.v := p.v.(lastHeartbeat := now);
        p.v := p.v.(status := "online");
        assert View().providers == old(View()).providers[id := p.v];
      }
    }

    /** The loop of `ListProviders`. */
    method ListProviders(filter: ProviderFilter) returns (out: seq<Ref<Provider>>)
      requires Valid()
      ensures forall i :: 0 <= i < |out| ==>
                            && out[i].v.id in providers
                            && providers[out[i].v.id] == out[i]
                            && SelectsProvider(filter, out[i].v)
      ensures forall i, j :: 0 <= i < j < |out| ==> out[i] != out[j]
      ensures forall id :: id in providers && SelectsProvider(filter, providers[id].v) ==> providers[id] in out
    {
      out := [];
      var todo := providers.Keys;
      while todo != {}
        invariant todo <= providers.Keys
        invariant forall i :: 0 <= i < |out| ==>
                                && out[i].v.id in providers.Keys - todo
                                && providers[out[i].v.id] == out[i]
                                && SelectsProvider(filter, out[i].v)
        invariant forall i, j :: 0 <= i < j < |out| ==> out[i] != out[j]
        invariant forall id :: id in providers.Keys - todo && SelectsProvider(filter, providers[id].v) ==>
                                 providers[id] in out
      {
        var id :| id in todo;
        todo := todo - {id};
        if SelectsProvider(filter, providers[id].v) {
          out := out + [providers[id]];
        }
      }
    }

    method ListSessions(filter: SessionFilter) returns (out: set<Session>)
      requires Valid()
      ensures out == SelectedSessions(View(), filter)
    {
      out := {};
      var todo := sessions.Keys;
      while todo != {}
        invariant todo <= sessions.Keys
        invariant out == set id | id in sessions.Keys - todo && SelectsSession(filter, sessions[id].v) :: sessions[id].v
      {
        var id :| id in todo;
        todo := todo - {id};
        if SelectsSession(filter, sessions[id].v) {
          out := out + {sessions[id].v};
        }
      }
      forall x ensures x in out <==> x in SelectedSessions(View(), filter) {
        if x in out {
          var id :| id in sessions && SelectsSession(filter, sessions[id].v) && sessions[id].v == x;
          assert id in View().sessions && View().sessions[id] == x;
        }
        if x in SelectedSessions(View(), filter) {
          var id :| id in View().sessions && SelectsSession(filter, View().sessions[id]) && View().sessions[id] == x;
          assert id in sessions && sessions[id].v == x;
        }
      }
    }

    /** The loop of `GetTerminatedSessionIDs`, which keeps the order and the repetitions of its input. */
    method GetTerminatedSessionIDs(ids: seq<string>, providerID: string) returns (out: seq<string>)
      requires Valid()
      ensures (set id | id in out) == TerminatedIDs(View(), (set id | id in ids), providerID)
    {
      out := [];
      for i := 0 to |ids|
        invariant forall id :: id in out <==> id in ids[..i] && id in sessions && EndedAt(sessions[id].v, providerID)
      {
        assert ids[..i + 1] == ids[..i] + [ids[i]];
        if ids[i] in sessions {
          var s := sessions[ids[i]];
          if s.v.providerID == providerID && s.v.status == "terminated" {
            out := out + [s.v.id];
          }
        }
      }
      assert ids[..|ids|] == ids;
    }
  }

  /** Two tables of rows. `fails` says that the database reports an error for the statement. */
  class PostgresStore {
    var providers: map<string, Provider>
    var sessions: map<string, Session>

    ghost function View(): DB
      reads this
    {
      DB(providers, sessions)
    }

    constructor ()
      ensures View() == EMPTY_DB
    {
      providers := map[];
      sessions := map[];
    }

    /** `INSERT ... ON CONFLICT (id) DO UPDATE SET`, column by column. */
    method PutProvider(p: Provider, fails: bool) returns (ok: bool)
      modifies this
      ensures ok == !fails
      ensures View() == StoreProvider(Postgres, old(View()), p, if fails then {p.id} else {})
    {
      ok := !fails;
      if ok {
        if p.id !in providers {
          providers := providers[p.id := p];
        } else {
          providers := providers[p.id := MergeProvider(providers[p.id], p)];
        }
      }
    }

    method PutSession(s: Session, fails: bool) returns (ok: bool)
      modifies this
      ensures ok == !fails
      ensures View() == StoreSession(Postgres, old(View()), s, if fails then {s.id} else {})
    {
      ok := !fails;
      if ok {
        if s.id !in sessions {
          sessions := sessions[s.id := s];
        } else {
          sessions := sessions[s.id := MergeSession(sessions[s.id], s)];
        }
      }
    }

    /** An `UPDATE` of a row that is not there is no error. */
    method UpdateHeartbeat(id: string, now: int, fails: bool) returns (ok: bool)
      modifies this
      ensures ok == !fails
      ensures View() == StoreHeartbeat(Postgres, old(View()), id, now, if fails then {id} else {})
    {
      ok := !fails;
      if ok && id in providers {
        providers := providers[id := providers[id].(lastHeartbeat := now, status := "online")];
      }
    }

    /** The row loop, over the rows the query selects in any order. */
    method ListSessions(filter: SessionFilter) returns (out: set<Session>)
      ensures out == SelectedSessions(View(), filter)
    {
      out := {};
      var todo := sessions.Keys;
      while todo != {}
        invariant todo <= sessions.Keys
        invariant out == set id | id in sessions.Keys - todo && SelectsSession(filter, sessions[id]) :: sessions[id]
      {
        var id :| id in todo;
        if SelectsSession(filter, sessions[id]) {
          out := out + {sessions[id]};
        }
        todo := todo - {id};
      }
    }

    /** The rows of the query, in any order; each once, however often its ID is asked for. */
    method GetTerminatedSessionIDs(ids: seq<string>, providerID: string) returns (out: seq<string>)
      ensures (set id | id in out) == TerminatedIDs(View(), (set id | id in ids), providerID)
      ensures forall i, j :: 0 <= i < j < |out| ==> out[i] != out[j]
    {
      out := [];
      if ids == [] {
        return;
      }
      var todo := sessions.Keys;
      while todo != {}
        invariant todo <= sessions.Keys
        invariant forall id :: id in out <==>
                                 id in sessions.Keys - todo && Asked(ids, id) && EndedAt(sessions[id], providerID)
        invariant forall i, j :: 0 <= i < j < |out| ==> out[i] != out[j]
      {
        var id :| id in todo;
        if id in ids && sessions[id].providerID == providerID && sessions[id].status == "terminated" {
          out := out + [id];
        }
        todo := todo - {id};
      }
    }
  }

  predicate Asked(ids: seq<string>, id: string) {
    id in ids
  }

  /** The store interface of the registry, over either store. A record in hand is a pointer: to the stored
      record itself, or to a copy of a row. */
  class Store {
    const backend: Backend
    const mem: MemoryStore
    const pg: PostgresStore

    constructor (backend: Backend)
      ensures this.backend == backend && Valid() && View() == EMPTY_DB
      ensures fresh(mem) && fresh(pg)
    {
      this.backend := backend;
      mem := new MemoryStore();
      pg := new PostgresStore();
    }

    ghost predicate Valid()
      reads mem, pg, mem.providers.Values, mem.sessions.Values
    {
      mem.Valid() && Keyed(pg.View())
    }

    ghost function View(): DB
      reads mem, pg, mem.providers.Values, mem.sessions.Values
      ensures Valid() ==> Keyed(View())
    {
      if backend.Memory? then mem.View() else pg.View()
    }

    /** `r` is the stored record, if the store shares its records. */
    ghost predicate HasSession(r: Ref<Session>)
      reads mem, r
    {
      backend.Memory? ==> r.v.id in mem.sessions && mem.sessions[r.v.id] == r
    }

    ghost predicate HasProvider(r: Ref<Provider>)
      reads mem, r
    {
      backend.Memory? ==> r.v.id in mem.providers && mem.providers[r.v.id] == r
    }

    method GetSessionByPrefix(prefix: string) returns (r: Lookup<Ref<Session>>)
      requires Valid()
      ensures r.Found? ==>
                && Resolve(backend, View().sessions.Keys, prefix) == Found(r.value.v.id)
                && r.value.v.id in View().sessions && View().sessions[r.value.v.id] == r.value.v
                && HasSession(r.value) && (backend.Postgres? ==> fresh(r.value))
      ensures r.NotFound? ==> Resolve(backend, View().sessions.Keys, prefix) == NotFound
      ensures r.Ambiguous? ==> Resolve(backend, View().sessions.Keys, prefix) == Ambiguous
    {
      ResolveIn(backend, View().sessions.Keys, prefix);
      match backend {
        case Memory =>
          assert View().sessions.Keys == mem.sessions.Keys;
          var id := ScanForPrefix(mem.sessions.Keys, prefix);
          match id {
            case Found(x) => r := Found(mem.sessions[x]);
            case NotFound => r := NotFound;
            case Ambiguous => r := Ambiguous;
          }
        case Postgres =>
          var id := QueryByPrefix(pg.sessions.Keys, prefix);
          match id {
            case Found(x) =>
              var rec := new Ref(pg.sessions[x]);
              r := Found(rec);
            case NotFound => r := NotFound;
            case Ambiguous => r := Ambiguous;
          }
      }
    }

    method GetProviderByPrefix(prefix: string) returns (r: Lookup<Ref<Provider>>)
      requires Valid()
      ensures r.Found? ==>
                && Resolve(backend, View().providers.Keys, prefix) == Found(r.value.v.id)
                && r.value.v.id in View().providers && View().providers[r.value.v.id] == r.value.v
                && HasProvider(r.value) && (backend.Postgres? ==> fresh(r.value))
      ensures r.NotFound? ==> Resolve(backend, View().providers.Keys, prefix) == NotFound
      ensures r.Ambiguous? ==> Resolve(backend, View().providers.Keys, prefix) == Ambiguous
    {
      ResolveIn(backend, View().providers.Keys, prefix);
      match backend {
        case Memory =>
          assert View().providers.Keys == mem.providers.Keys;
          var id := ScanForPrefix(mem.providers.Keys, prefix);
          match id {
            case Found(x) => r := Found(mem.providers[x]);
            case NotFound => r := NotFound;
            case Ambiguous => r := Ambiguous;
          }
        case Postgres =>
          var id := QueryByPrefix(pg.providers.Keys, prefix);
          match id {
            case Found(x) =>
              var rec := new Ref(pg.providers[x]);
              r := Found(rec);
            case NotFound => r := NotFound;
            case Ambiguous => r := Ambiguous;
          }
      }
    }

    method GetProvider(id: string) returns (r: Option<Ref<Provider>>)
      requires Valid()
      ensures r.Some? <==> id in View().providers
      ensures r.Some? ==>
                && r.value.v == View().providers[id] && r.value.v.id == id
                && HasProvider(r.value) && (backend.Postgres? ==> fresh(r.value))
    {
      match backend {
        case Memory =>
          r := if id in mem.providers then Some(mem.providers[id]) else None;
        case Postgres =>
          if id in pg.providers {
            var rec := new Ref(pg.providers[id]);
            r := Some(rec);
          } else {
            r := None;
          }
      }
    }

    /** Assigning to the fields of a session record in hand. */
    method SetSession(r: Ref<Session>, v: Session)
      requires Valid() && HasSession(r) && v.id == r.v.id && r.v.id in View().sessions
      modifies r
      ensures Valid() && HasSession(r) && r.v == v
      ensures View() == EditSession(backend, old(View()), v)
    {
      r.v := v;
      assert mem.View().providers == old(mem.View()).providers;
      if backend.Memory? {
        assert View().sessions == old(View()).sessions[v.id := v];
      }
    }

    /** Assigning to the fields of a provider record in hand. */
    method SetProvider(r: Ref<Provider>, v: Provider)
      requires Valid() && HasProvider(r) && v.id == r.v.id && r.v.id in View().providers
      modifies r
      ensures Valid() && HasProvider(r) && r.v == v
      ensures View() == EditProvider(backend, old(View()), v)
    {
      r.v := v;
      assert mem.View().sessions == old(mem.View()).sessions;
      if backend.Memory? {
        assert View().providers == old(View()).providers[v.id := v];
      }
    }

    method PutSession(r: Ref<Session>, failing: set<string>) returns (ok: bool)
      requires Valid()
      modifies mem, pg
      ensures Valid() && HasSession(r)
      ensures ok == !WriteFails(backend, r.v.id, failing)
      ensures View() == StoreSession(backend, old(View()), r.v, failing)
      ensures mem.providers == old(mem.providers)
      ensures mem.sessions == if backend.Memory? then old(mem.sessions)[r.v.id := r] else old(mem.sessions)
    {
      match backend {
        case Memory =>
          mem.PutSession(r);
          ok := true;
        case Postgres =>
          ok := pg.PutSession(r.v, r.v.id in failing);
      }
    }

    /** Changing the fields of a session record in hand, then writing it back. */
    method WriteSession(r: Ref<Session>, v: Session, failing: set<string>) returns (ok: bool)
      requires Valid() && HasSession(r) && v.id == r.v.id && v.id in View().sessions
      modifies r, mem, pg
      ensures Valid() && r.v == v
      ensures ok == !WriteFails(backend, v.id, failing)
      ensures View() == WriteBack(backend, old(View()), v, failing)
    {
      SetSession(r, v);
      ok := PutSession(r, failing);
    }

    /** Changing the fields of a provider record in hand, then writing it back. */
    method WriteProvider(r: Ref<Provider>, v: Provider, failing: set<string>) returns (ok: bool)
      requires Valid() && HasProvider(r) && v.id == r.v.id && v.id in View().providers
      modifies r, mem, pg
      ensures Valid() && r.v == v
      ensures ok == !WriteFails(backend, v.id, failing)
      ensures View() == StoreProvider(backend, EditProvider(backend, old(View()), v), v, failing)
      ensures mem.providers == old(mem.providers) && mem.sessions == old(mem.sessions)
    {
      SetProvider(r, v);
      ok := PutProvider(r, failing);
      assert backend.Memory? ==> old(mem.providers)[v.id := r] == old(mem.providers);
    }

    method PutProvider(r: Ref<Provider>, failing: set<string>) returns (ok: bool)
      requires Valid()
      modifies mem, pg
      ensures Valid() && HasProvider(r)
      ensures ok == !WriteFails(backend, r.v.id, failing)
      ensures View() == StoreProvider(backend, old(View()), r.v, failing)
      ensures mem.sessions == old(mem.sessions)
      ensures mem.providers == if backend.Memory? then old(mem.providers)[r.v.id := r] else old(mem.providers)
    {
      match backend {
        case Memory =>
          mem.PutProvider(r);
          ok := true;
        case Postgres =>
          ok := pg.PutProvider(r.v, r.v.id in failing);
      }
    }

    method UpdateHeartbeat(id: string, now: int, failing: set<string>) returns (ok: bool)
      requires Valid() && id in View().providers
      modifies pg, mem.providers.Values
      ensures Valid() && ok == !WriteFails(backend, id, failing)
      ensures mem.providers == old(mem.providers) && mem.sessions == old(mem.sessions)
      ensures View() == StoreHeartbeat(backend, old(View()), id, now, failing)
    {
      match backend {
        case Memory => ok := mem.UpdateHeartbeat(id, now);
        case Postgres => ok := pg.UpdateHeartbeat(id, now, id in failing);
      }
    }

    method GetTerminatedSessionIDs(ids: seq<string>, providerID: string) returns (out: set<string>)
      requires Valid()
      ensures out == TerminatedIDs(View(), (set id | id in ids), providerID)
    {
      var list;
      match backend {
        case Memory => list := mem.GetTerminatedSessionIDs(ids, providerID);
        case Postgres => list := pg.GetTerminatedSessionIDs(ids, providerID);
      }
      out := set id | id in list;
    }

    method ListSessions(filter: SessionFilter) returns (out: set<Session>)
      requires Valid()
      ensures out == SelectedSessions(View(), filter)
    {
      match backend {
        case Memory =>
          out := mem.ListSessions(filter);
        case Postgres => out := pg.ListSessions(filter);
      }
    }

    /** Pointers to the selected records, or to copies of the selected rows. */
    method ListProviders(filter: ProviderFilter) returns (out: seq<Ref<Provider>>)
      requires Valid()
      ensures forall i :: 0 <= i < |out| ==>
                && out[i].v.id in View().providers && View().providers[out[i].v.id] == out[i].v
                && SelectsProvider(filter, out[i].v) && HasProvider(out[i]) && (backend.Postgres? ==> fresh(out[i]))
      ensures forall i, j :: 0 <= i < j < |out| ==> out[i] != out[j] && out[i].v.id != out[j].v.id
      ensures forall id :: id in View().providers && SelectsProvider(filter, View().providers[id]) ==>
                exists i :: 0 <= i < |out| && out[i].v.id == id
    {
      match backend {
        case Memory =>
          out := mem.ListProviders(filter);
          forall id | id in View().providers && SelectsProvider(filter, View().providers[id])
            ensures exists i :: 0 <= i < |out| && out[i].v.id == id
          {
            var i :| 0 <= i < |out| && out[i] == mem.providers[id];
            assert out[i].v.id == id;
          }
        case Postgres =>
          out := SelectRows(filter);
      }
    }

    /** `SELECT` with the filter's conditions, each row scanned into a new record. */
    method SelectRows(filter: ProviderFilter) returns (out: seq<Ref<Provider>>)
      requires Valid()
      ensures forall i :: 0 <= i < |out| ==>
                && fresh(out[i]) && out[i].v.id in pg.providers && pg.providers[out[i].v.id] == out[i].v
                && SelectsProvider(filter, out[i].v)
      ensures forall i, j :: 0 <= i < j < |out| ==> out[i] != out[j] && out[i].v.id != out[j].v.id
      ensures forall id :: id in pg.providers && SelectsProvider(filter, pg.providers[id]) ==>
                exists i :: 0 <= i < |out| && out[i].v.id == id
    {
      out := [];
      var todo := pg.providers.Keys;
      while todo != {}
        invariant todo <= pg.providers.Keys
        invariant forall i :: 0 <= i < |out| ==>
                    && fresh(out[i]) && out[i].v.id in pg.providers.Keys - todo
                    && pg.providers[out[i].v.id] == out[i].v && SelectsProvider(filter, out[i].v)
        invariant forall i, j :: 0 <= i < j < |out| ==> out[i] != out[j] && out[i].v.id != out[j].v.id
        invariant forall id :: id in pg.providers.Keys - todo && SelectsProvider(filter, pg.providers[id]) ==>
                    exists i :: 0 <= i < |out| && out[i].v.id == id
      {
        var id :| id in todo;
        todo := todo - {id};
        if SelectsProvider(filter, pg.providers[id]) {
          var rec := new Ref(pg.providers[id]);
          ghost var before := out;
          out := out + [rec];
          assert forall i :: 0 <= i < |before| ==> out[i] == before[i];
          assert out[|before|].v.id == id;
        }
      }
    }
  }
}
