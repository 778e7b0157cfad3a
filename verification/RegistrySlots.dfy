/** Sessions and tunnel slots of the registry over whole runs, and the ports derived from them. */
module RegistrySlots {
  import opened Text
  import opened Tunnel
  import opened PrefixLookup
  import opened Records
  import opened Registry

  /** The two tunnel maps are inverse, the slot holders are exactly the sessions not terminated, and each
      of them carries the addresses of its slot. */
  ghost predicate AgreeOn(ss: map<string, Session>, slots: Slots) {
    && Inverse(slots)
    && (forall id :: id in slots.idxs <==> id in ss && ss[id].status != "terminated")
    && (forall id :: id in slots.idxs ==> HasAddresses(ss[id], slots.idxs[id]))
  }

  predicate HasAddresses(s: Session, idx: TunnelIndex) {
    s.wgProviderIP == ProviderIP(idx) && s.wgRenterIP == RenterIP(idx)
  }

  ghost predicate Agree(st: State) {
    Ok(st) && AgreeOn(st.db.sessions, st.slots)
  }

  /** A session ID generated by the call has never been used. */
  predicate FreshSession(st: State, c: Call) {
    c.CreateSession? ==> c.freshID !in st.db.sessions && c.freshID !in st.slots.idxs && c.freshID !in st.candidates
  }

  /** The call gets as far as writing the new session's record. */
  ghost predicate ReachesWrite(b: Backend, st: State, c: Call)
    requires c.CreateSession?
  {
    && (c.networkPolicy == "wireguard_required" ==> c.wgPublicKey != "")
    && var found := Resolve(b, st.db.providers.Keys, c.provider);
    && found.Found? && found.value in st.db.providers && st.db.providers[found.value].status == "online"
    && c.reputable && !Full(st.slots)
  }

  /** The status of an update ends up in the store. */
  predicate StatusStored(b: Backend, c: Call, id: string)
    requires c.UpdateSessionStatus?
  {
    b.Memory? || (!Refused(c) && id !in c.failing)
  }

  /** The calls that separate sessions from slots: a creation whose record is not written leaks its slot, an
      update that ends a session but is not written frees a slot still in use, and an update that revives
      a terminated session gives it none. */
  ghost predicate Separates(b: Backend, st: State, c: Call) {
    match c
    case CreateSession(_, _, _, _, _, _, _, _, _, _, _) => ReachesWrite(b, st, c) && WriteFails(b, c.freshID, c.failing)
    case UpdateSessionStatus(_, _, _, _, _, _, _, _) =>
      var found := Resolve(b, st.db.sessions.Keys, c.session);
      found.Found? && found.value in st.db.sessions &&
      var was := st.db.sessions[found.value].status;
      || (was != "terminated" && c.status == "terminated" && !StatusStored(b, c, found.value))
      || (was == "terminated" && c.status != "terminated" && StatusStored(b, c, found.value))
    case _ => false
  }

  // ---- What each kind of change does to the agreement ----

  lemma AgreeAfterTake(ss: map<string, Session>, slots: Slots, id: string, s: Session)
    requires AgreeOn(ss, slots) && !Full(slots) && id !in ss
    requires s.status != "terminated" && HasAddresses(s, NextSlot(slots))
    ensures AgreeOn(ss[id := s], Take(slots, id))
    ensures !AgreeOn(ss, Take(slots, id))
  {
    TakeInverseIff(slots, id);
    assert id in Take(slots, id).idxs;
  }

  /** The row of one session changes and the slots do not. */
  lemma AgreeAfterRow(ss: map<string, Session>, slots: Slots, id: string, s: Session)
    requires AgreeOn(ss, slots) && id in ss && s.wgProviderIP == ss[id].wgProviderIP
    requires s.wgRenterIP == ss[id].wgRenterIP
    ensures AgreeOn(ss[id := s], slots) <==> (s.status == "terminated" <==> ss[id].status == "terminated")
  {
    assert id in slots.idxs <==> ss[id].status != "terminated";
    var after := ss[id := s];
    if s.status == "terminated" <==> ss[id].status == "terminated" {
      assert forall x :: x in slots.idxs ==> HasAddresses(after[x], slots.idxs[x]);
    }
  }

  /** The row of one session changes and its slot is released. */
  lemma AgreeAfterRelease(ss: map<string, Session>, slots: Slots, id: string, s: Session)
    requires AgreeOn(ss, slots) && id in ss
    ensures AgreeOn(ss[id := s], Release(slots, id)) <==> s.status == "terminated"
  {
    ReleaseInverse(slots, id);
    assert id !in Release(slots, id).idxs;
    assert id in ss[id := s];
  }

  lemma CreateKeepsAgreeIff(b: Backend, st: State, c: Call)
    requires Agree(st) && c.CreateSession? && FreshSession(st, c)
    ensures Agree(DoCreateSession(b, st, c).state) <==> !Separates(b, st, c)
  {
    ResolveIn(b, st.db.providers.Keys, c.provider);
    if ReachesWrite(b, st, c) {
      var p := st.db.providers[Resolve(b, st.db.providers.Keys, c.provider).value];
      var idx := NextSlot(st.slots);
      AgreeAfterTake(st.db.sessions, st.slots, c.freshID, NewSession(c, p.id, ProviderIP(idx), RenterIP(idx)));
    }
  }

  lemma TerminateKeepsAgree(b: Backend, st: State, c: Call)
    requires Agree(st) && c.TerminateSession?
    ensures Agree(DoTerminateSession(b, st, c).state)
  {
    ResolveIn(b, st.db.sessions.Keys, c.session);
    var found := Resolve(b, st.db.sessions.Keys, c.session);
    if found.Found? {
      var row := st.db.sessions[found.value];
      var rec := row.(status := "terminated", terminatedAt := c.now);
      AgreeAfterRow(st.db.sessions, st.slots, row.id, row);
      AgreeAfterRelease(st.db.sessions, st.slots, row.id, RowAfter(b, row, rec, c.failing));
    }
  }

  lemma UpdateKeepsAgreeIff(b: Backend, st: State, c: Call)
    requires Agree(st) && c.UpdateSessionStatus?
    ensures Agree(DoUpdateSessionStatus(b, st, c).state) <==> !Separates(b, st, c)
  {
    ResolveIn(b, st.db.sessions.Keys, c.session);
    var found := Resolve(b, st.db.sessions.Keys, c.session);
    if found.Found? {
      var id, row := found.value, st.db.sessions[found.value];
      var after := UpdateEffect(b, st, c);
      AgreeAfterRow(st.db.sessions, st.slots, id, after);
      AgreeAfterRelease(st.db.sessions, st.slots, id, after);
    }
  }

  /** The row an update leaves of the session it names, and that it touches no other. */
  lemma UpdateEffect(b: Backend, st: State, c: Call) returns (after: Session)
    requires Ok(st) && c.UpdateSessionStatus? && Resolve(b, st.db.sessions.Keys, c.session).Found?
    ensures var id, r := Resolve(b, st.db.sessions.Keys, c.session).value, DoUpdateSessionStatus(b, st, c).state;
            && id in st.db.sessions && r.db.sessions == st.db.sessions[id := after]
            && after.status == (if StatusStored(b, c, id) then c.status else st.db.sessions[id].status)
            && after.wgProviderIP == st.db.sessions[id].wgProviderIP
            && after.wgRenterIP == st.db.sessions[id].wgRenterIP
            && r.slots == (if c.status == "terminated" && st.db.sessions[id].status != "terminated"
                           then Release(st.slots, id) else st.slots)
  {
    ResolveIn(b, st.db.sessions.Keys, c.session);
    var id := Resolve(b, st.db.sessions.Keys, c.session).value;
    after := DoUpdateSessionStatus(b, st, c).state.db.sessions[id];
    if Refused(c) {
      assert b.Postgres? ==> st.db.sessions == st.db.sessions[id := after];
    }
  }

  lemma ReportKeepsAgree(b: Backend, st: State, c: Call)
    requires Agree(st) && c.ReportConnectionResult?
    ensures Agree(DoReportConnectionResult(b, st, c).state)
  {
    ResolveIn(b, st.db.sessions.Keys, c.session);
    var found := Resolve(b, st.db.sessions.Keys, c.session);
    if found.Found? {
      var row := st.db.sessions[found.value];
      var rec := row.(connectionMode := if c.useRelay then "relay" else "holepunch");
      AgreeAfterRow(st.db.sessions, st.slots, row.id, RowAfter(b, row, rec, c.failing));
    }
  }

  /** A call keeps live sessions and slots in agreement exactly when it is not one of the separating ones. */
  lemma AgreeStepIff(b: Backend, st: State, c: Call)
    requires Agree(st) && FreshSession(st, c)
    ensures Agree(Next(b, st, c)) <==> !Separates(b, st, c)
  {
    if !OnSessions(c) {
      OthersLeaveSessions(b, st, c);
    } else if c.CreateSession? {
      CreateKeepsAgreeIff(b, st, c);
    } else if c.TerminateSession? {
      TerminateKeepsAgree(b, st, c);
    } else if c.UpdateSessionStatus? {
      UpdateKeepsAgreeIff(b, st, c);
    } else {
      ReportKeepsAgree(b, st, c);
    }
  }

  ghost predicate FreshRun(b: Backend, st: State, calls: seq<Call>)
    requires Ok(st)
    decreases |calls|
  {
    calls == [] || (FreshSession(st, calls[0]) && FreshRun(b, Next(b, st, calls[0]), calls[1..]))
  }

  ghost predicate NeverSeparates(b: Backend, st: State, calls: seq<Call>)
    requires Ok(st)
    decreases |calls|
  {
    calls == [] || (!Separates(b, st, calls[0]) && NeverSeparates(b, Next(b, st, calls[0]), calls[1..]))
  }

  ghost predicate AgreeThroughout(b: Backend, st: State, calls: seq<Call>)
    requires Ok(st)
    decreases |calls|
  {
    Agree(st) && (calls == [] || AgreeThroughout(b, Next(b, st, calls[0]), calls[1..]))
  }

  /** Live sessions and slots agree in every state of a run exactly when no call of it separates them. */
  lemma {:induction false} LiveSessionsHoldSlots(b: Backend, st: State, calls: seq<Call>)
    requires Agree(st) && FreshRun(b, st, calls)
    ensures AgreeThroughout(b, st, calls) <==> NeverSeparates(b, st, calls)
    ensures NeverSeparates(b, st, calls) ==> Agree(Run(b, st, calls))
    decreases |calls|
  {
    if calls != [] {
      AgreeStepIff(b, st, calls[0]);
      if !Separates(b, st, calls[0]) {
        LiveSessionsHoldSlots(b, Next(b, st, calls[0]), calls[1..]);
      }
    }
  }

  lemma StartAgrees()
    ensures Agree(START)
  {
  }

  /** No two addresses of live sessions are equal, in either role. */
  lemma LiveAddressesDistinct(st: State, x: string, y: string)
    requires Agree(st) && x in st.slots.idxs && y in st.slots.idxs
    ensures st.db.sessions[x].wgProviderIP != st.db.sessions[y].wgRenterIP
    ensures x != y ==> st.db.sessions[x].wgProviderIP != st.db.sessions[y].wgProviderIP
    ensures x != y ==> st.db.sessions[x].wgRenterIP != st.db.sessions[y].wgRenterIP
  {
    var a, b := st.slots.idxs[x], st.slots.idxs[y];
    assert st.slots.owners[a] == x && st.slots.owners[b] == y;
    TunnelIPInjective(a, "1", b, "2");
    TunnelIPInjective(a, "1", b, "1");
    TunnelIPInjective(a, "2", b, "2");
  }

  /** In any state at all, a session loses its slot only to a call that names that session: a late or
      repeated termination never frees a slot now owned by another one. */
  lemma SlotFreedOnlyByOwner(b: Backend, st: State, c: Call, other: string)
    requires Ok(st) && other in st.slots.idxs && !(c.CreateSession? && c.freshID == other)
    ensures || KeepsSlot(st.slots, Next(b, st, c).slots, other)
            || ((c.TerminateSession? || c.UpdateSessionStatus?)
                && Resolve(b, st.db.sessions.Keys, c.session) == Found(other))
  {
    if !OnSessions(c) {
      OthersLeaveSessions(b, st, c);
    } else if c.CreateSession? {
      TakeKeepsOthers(st.slots, c.freshID, other);
    } else {
      ResolveIn(b, st.db.sessions.Keys, c.session);
      var found := Resolve(b, st.db.sessions.Keys, c.session);
      if found.Found? && found.value != other {
        ReleaseKeepsOthers(st.slots, found.value, other);
      }
    }
  }

  /** `id` holds the same slot before and after. */
  predicate KeepsSlot(a: Slots, b: Slots, id: string) {
    && id in a.idxs && id in b.idxs && b.idxs[id] == a.idxs[id]
    && a.idxs[id] in b.owners && b.owners[a.idxs[id]] == id
  }

  /** A creation that gets as far as writing its record and fails there answers with an error and leaves its session ID
      with a slot and without a record. */
  lemma FailedCreationLeaks(b: Backend, st: State, c: Call)
    requires Ok(st) && c.CreateSession? && FreshSession(st, c) && ReachesWrite(b, st, c)
    requires WriteFails(b, c.freshID, c.failing)
    ensures var r := Next(b, st, c);
            && Answers(b, st, c, Failed(Internal))
            && c.freshID in r.slots.idxs && c.freshID !in r.db.sessions
            && r.slots.idxs[c.freshID] == NextSlot(st.slots)
  {
  }

  /** Then the slot is gone for good, in every later state of every run. */
  lemma FailedCreationLeaksForever(b: Backend, st: State, c: Call, calls: seq<Call>)
    requires Ok(st) && c.CreateSession? && FreshSession(st, c) && ReachesWrite(b, st, c)
    requires WriteFails(b, c.freshID, c.failing)
    requires forall i :: 0 <= i < |calls| && calls[i].CreateSession? ==> calls[i].freshID != c.freshID
    ensures var r := Run(b, Next(b, st, c), calls);
            && NextSlot(st.slots) in r.slots.owners && r.slots.owners[NextSlot(st.slots)] == c.freshID
            && c.freshID !in r.db.sessions
  {
    FailedCreationLeaks(b, st, c);
    LeakIsPermanent(b, Next(b, st, c), calls, c.freshID);
  }

  /** A slot held without a record is leaked for good: no later call of any kind frees it. */
  lemma {:induction false} LeakIsPermanent(b: Backend, st: State, calls: seq<Call>, id: string)
    requires Ok(st) && id in st.slots.idxs && id !in st.db.sessions
    requires forall i :: 0 <= i < |calls| && calls[i].CreateSession? ==> calls[i].freshID != id
    ensures id !in Run(b, st, calls).db.sessions && KeepsSlot(st.slots, Run(b, st, calls).slots, id)
    decreases |calls|
  {
    if calls != [] {
      var c := calls[0];
      var next := Next(b, st, c);
      SlotFreedOnlyByOwner(b, st, c, id);
      if c.TerminateSession? || c.UpdateSessionStatus? {
        ResolveIn(b, st.db.sessions.Keys, c.session);
      }
      NoRecordAppears(b, st, c, id);
      LeakIsPermanent(b, next, calls[1..], id);
    }
  }

  /** Only the creation of a session adds a record for its ID. */
  lemma NoRecordAppears(b: Backend, st: State, c: Call, id: string)
    requires Ok(st) && id !in st.db.sessions && !(c.CreateSession? && c.freshID == id)
    ensures id !in Next(b, st, c).db.sessions
  {
    if !OnSessions(c) {
      OthersLeaveSessions(b, st, c);
    } else if !c.CreateSession? {
      ResolveIn(b, st.db.sessions.Keys, c.session);
    }
  }

  // ---- Ports ----

  /** `parseTunnelIndex`: the third field of the address, 0 when there are not four. */
  function ParseTunnelIndex(ip: string): int {
    var parts := Split(ip, '.');
    if |parts| != 4 then 0 else Atoi(parts[2])
  }

  function WireGuardPort(base: int, s: Session): int {
    base + ParseTunnelIndex(s.wgProviderIP)
  }

  const PROXY_OFFSET := 10000

  lemma ParsePrinted(idx: TunnelIndex)
    ensures ParseTunnelIndex(ProviderIP(idx)) == idx.minor
  {
    TunnelIPFields(idx, "1");
    AtoiDecimal(idx.minor);
  }

  /** On one provider two live sessions get the same WireGuard port exactly when their slots share the
      minor octet, so never within one major octet; and no proxy port is a WireGuard port. */
  lemma WireGuardPorts(st: State, base: int, x: string, y: string)
    requires Agree(st) && x in st.slots.idxs && y in st.slots.idxs && x != y
    ensures var px, py := WireGuardPort(base, st.db.sessions[x]), WireGuardPort(base, st.db.sessions[y]);
            && (px == py <==> st.slots.idxs[x].minor == st.slots.idxs[y].minor)
            && (px == py ==> st.slots.idxs[x].major != st.slots.idxs[y].major)
            && px + PROXY_OFFSET != py
            && base < px <= base + MINOR_MAX
  {
    var a, b := st.slots.idxs[x], st.slots.idxs[y];
    ParsePrinted(a);
    ParsePrinted(b);
    assert st.slots.owners[a] == x && st.slots.owners[b] == y;
  }
}
