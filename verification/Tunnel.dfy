/** The two-octet tunnel address space of the registry and its slot allocator. */
module Tunnel {
  import opened Text

  /** A Go `uint8`. */
  type Octet = x: int | 0 <= x < 256

  datatype TunnelIndex = TunnelIndex(major: Octet, minor: Octet)

  const MAJOR_MIN := 99
  const MAJOR_MAX := 126
  const MINOR_MIN := 1
  const MINOR_MAX := 254
  const MAX_SLOTS := (MAJOR_MAX - MAJOR_MIN + 1) * (MINOR_MAX - MINOR_MIN + 1)
  const FIRST := TunnelIndex(MAJOR_MIN, MINOR_MIN)

  predicate InRange(idx: TunnelIndex) {
    MAJOR_MIN <= idx.major <= MAJOR_MAX && MINOR_MIN <= idx.minor <= MINOR_MAX
  }

  /** `x++` on a `uint8`. */
  function Increment(x: Octet): Octet {
    if x == 255 then 0 else x + 1
  }

  /** `advanceTunnel`, with the octets wrapping at 256. */
  function Advance(idx: TunnelIndex): TunnelIndex {
    var minor := Increment(idx.minor);
    if minor > MINOR_MAX then
      var major := Increment(idx.major);
      TunnelIndex(if major > MAJOR_MAX then MAJOR_MIN else major, MINOR_MIN)
    else
      TunnelIndex(idx.major, minor)
  }

  function AdvanceBy(idx: TunnelIndex, n: nat): TunnelIndex {
    if n == 0 then idx else Advance(AdvanceBy(idx, n - 1))
  }

  // ---- One cycle through all 7112 slots ----

  ghost function Rank(idx: TunnelIndex): (r: nat)
    requires InRange(idx)
    ensures r < MAX_SLOTS
  {
    (idx.major - MAJOR_MIN) * 254 + (idx.minor - MINOR_MIN)
  }

  /** How many advances lead from `a` to `b`. */
  ghost function Distance(a: TunnelIndex, b: TunnelIndex): (d: nat)
    requires InRange(a) && InRange(b)
    ensures d < MAX_SLOTS
  {
    if Rank(a) <= Rank(b) then Rank(b) - Rank(a) else Rank(b) + MAX_SLOTS - Rank(a)
  }

  lemma RankInjective(a: TunnelIndex, b: TunnelIndex)
    requires InRange(a) && InRange(b) && Rank(a) == Rank(b)
    ensures a == b
  {
  }

  lemma AdvanceRank(idx: TunnelIndex)
    requires InRange(idx)
    ensures InRange(Advance(idx))
    ensures Rank(Advance(idx)) == if Rank(idx) + 1 == MAX_SLOTS then 0 else Rank(idx) + 1
  {
  }

  lemma {:induction false} AdvanceByInRange(idx: TunnelIndex, n: nat)
    requires InRange(idx)
    ensures InRange(AdvanceBy(idx, n))
  {
    if n > 0 {
      AdvanceByInRange(idx, n - 1);
    }
  }

  lemma {:induction false} AdvanceByRank(idx: TunnelIndex, n: nat)
    requires InRange(idx) && n <= MAX_SLOTS
    ensures InRange(AdvanceBy(idx, n))
    ensures Rank(AdvanceBy(idx, n)) == if Rank(idx) + n < MAX_SLOTS then Rank(idx) + n else Rank(idx) + n - MAX_SLOTS
  {
    if n > 0 {
      AdvanceByRank(idx, n - 1);
      AdvanceRank(AdvanceBy(idx, n - 1));
    }
  }

  lemma {:induction false} AdvanceByAdd(idx: TunnelIndex, m: nat, n: nat)
    ensures AdvanceBy(AdvanceBy(idx, m), n) == AdvanceBy(idx, m + n)
  {
    if n > 0 {
      AdvanceByAdd(idx, m, n - 1);
    }
  }

  /** `advanceTunnel` is a single cycle: every slot is reached from every slot, after exactly one
      number of advances below 7112, and 7112 advances come back. */
  lemma SingleCycle(a: TunnelIndex, b: TunnelIndex, n: nat)
    requires InRange(a) && InRange(b) && n < MAX_SLOTS
    ensures AdvanceBy(a, n) == b <==> n == Distance(a, b)
    ensures AdvanceBy(a, MAX_SLOTS) == a
  {
    AdvanceByRank(a, n);
    AdvanceByRank(a, MAX_SLOTS);
    RankInjective(AdvanceBy(a, MAX_SLOTS), a);
    if n == Distance(a, b) {
      RankInjective(AdvanceBy(a, n), b);
    }
  }

  // ---- Counting slots ----

  ghost function Visited(from: TunnelIndex, n: nat): set<TunnelIndex> {
    set k | 0 <= k < n :: AdvanceBy(from, k)
  }

  lemma {:induction false} VisitedSize(from: TunnelIndex, n: nat)
    requires InRange(from) && n <= MAX_SLOTS
    ensures |Visited(from, n)| == n
  {
    if n == 0 {
      assert Visited(from, 0) == {};
    } else {
      VisitedSize(from, n - 1);
      var last := AdvanceBy(from, n - 1);
      forall k | 0 <= k < n - 1
        ensures AdvanceBy(from, k) != last
      {
        AdvanceByInRange(from, n - 1);
        SingleCycle(from, last, k);
        SingleCycle(from, last, n - 1);
      }
      assert Visited(from, n) == Visited(from, n - 1) + {last};
    }
  }

  lemma SubsetSize<T>(a: set<T>, b: set<T>)
    requires a <= b
    ensures |a| <= |b|
    ensures |a| == |b| ==> a == b
  {
    assert b == a + (b - a);
    assert |b| == |a| + |b - a|;
    if |a| == |b| {
      assert b - a == {};
    }
  }

  lemma VisitedIsEverything(from: TunnelIndex, idx: TunnelIndex)
    requires InRange(from) && InRange(idx)
    ensures idx in Visited(from, MAX_SLOTS)
  {
    SingleCycle(from, idx, Distance(from, idx));
  }

  /** The pigeonhole step behind the scan: it never passes more slots than are taken. */
  lemma ScanBound(taken: set<TunnelIndex>, from: TunnelIndex, n: nat)
    requires InRange(from) && n <= MAX_SLOTS
    requires forall k :: 0 <= k < n ==> AdvanceBy(from, k) in taken
    ensures n <= |taken|
  {
    VisitedSize(from, n);
    SubsetSize(Visited(from, n), taken);
  }

  /** The size test of the allocator is the same as "every slot is taken". */
  lemma FullIff(taken: set<TunnelIndex>)
    requires forall idx :: idx in taken ==> InRange(idx)
    ensures |taken| <= MAX_SLOTS
    ensures |taken| == MAX_SLOTS <==> forall idx :: InRange(idx) ==> idx in taken
  {
    var all := Visited(FIRST, MAX_SLOTS);
    VisitedSize(FIRST, MAX_SLOTS);
    forall idx | InRange(idx)
      ensures idx in all
    {
      VisitedIsEverything(FIRST, idx);
    }
    forall idx | idx in all
      ensures InRange(idx)
    {
      var k :| 0 <= k < MAX_SLOTS && idx == AdvanceBy(FIRST, k);
      AdvanceByRank(FIRST, k);
    }
    SubsetSize(taken, all);
    if forall idx :: InRange(idx) ==> idx in taken {
      SubsetSize(all, taken);
    }
  }

  // ---- The allocator as a value ----

  /** The hint, `usedTunnelIdxs` and `usedTunnelSet`. */
  datatype Slots = Slots(hint: TunnelIndex, idxs: map<string, TunnelIndex>, owners: map<TunnelIndex, string>)

  const EMPTY := Slots(FIRST, map[], map[])

  /** What every operation keeps, whatever session IDs it is given. */
  ghost predicate SlotsOk(a: Slots) {
    && InRange(a.hint)
    && (forall idx :: idx in a.owners ==> InRange(idx))
    && (forall id :: id in a.idxs ==> a.idxs[id] in a.owners && a.owners[a.idxs[id]] == id)
  }

  /** The two maps are inverses of each other. */
  ghost predicate Inverse(a: Slots) {
    && SlotsOk(a)
    && (forall idx :: idx in a.owners ==> a.owners[idx] in a.idxs && a.idxs[a.owners[idx]] == idx)
  }

  ghost predicate IsFirstFree(owners: map<TunnelIndex, string>, hint: TunnelIndex, n: nat) {
    && AdvanceBy(hint, n) !in owners
    && (forall k :: 0 <= k < n ==> AdvanceBy(hint, k) in owners)
  }

  lemma FirstFreeUnique(owners: map<TunnelIndex, string>, hint: TunnelIndex, m: nat, n: nat)
    requires IsFirstFree(owners, hint, m) && IsFirstFree(owners, hint, n)
    ensures m == n
  {
    var p, q := AdvanceBy(hint, m), AdvanceBy(hint, n);
  }

  lemma {:induction false} FirstFreeExists(a: Slots, n: nat) returns (r: nat)
    requires SlotsOk(a) && |a.owners| < MAX_SLOTS && n <= |a.owners|
    requires forall k :: 0 <= k < n ==> AdvanceBy(a.hint, k) in a.owners
    ensures IsFirstFree(a.owners, a.hint, r) && r <= |a.owners|
    decreases |a.owners| - n
  {
    if AdvanceBy(a.hint, n) !in a.owners {
      r := n;
    } else {
      assert |a.owners.Keys| == |a.owners|;
      ScanBound(a.owners.Keys, a.hint, n + 1);
      r := FirstFreeExists(a, n + 1);
    }
  }

  lemma FirstFree(a: Slots)
    requires SlotsOk(a) && |a.owners| < MAX_SLOTS
    ensures exists n: nat :: IsFirstFree(a.owners, a.hint, n) && n <= |a.owners|
  {
    var n := FirstFreeExists(a, 0);
  }

  /** The first free slot in cyclic order from the hint, as a number of advances. */
  ghost function ScanLength(a: Slots): (n: nat)
    requires SlotsOk(a) && |a.owners| < MAX_SLOTS
    ensures IsFirstFree(a.owners, a.hint, n) && n <= |a.owners|
  {
    FirstFree(a);
    var n: nat :| IsFirstFree(a.owners, a.hint, n) && n <= |a.owners|;
    n
  }

  ghost predicate Full(a: Slots) {
    |a.owners| >= MAX_SLOTS
  }

  ghost function NextSlot(a: Slots): (idx: TunnelIndex)
    requires SlotsOk(a) && !Full(a)
    ensures InRange(idx) && idx !in a.owners
  {
    AdvanceByInRange(a.hint, ScanLength(a));
    AdvanceBy(a.hint, ScanLength(a))
  }

  ghost function Take(a: Slots, id: string): (b: Slots)
    requires SlotsOk(a)
    ensures SlotsOk(b)
  {
    if Full(a) then a
    else
      var idx := NextSlot(a);
      AdvanceRank(idx);
      Slots(Advance(idx), a.idxs[id := idx], a.owners[idx := id])
  }

  ghost function Release(a: Slots, id: string): (b: Slots)
    requires SlotsOk(a)
    ensures SlotsOk(b)
  {
    if id in a.idxs then Slots(a.hint, a.idxs - {id}, a.owners - {a.idxs[id]}) else a
  }

  lemma TakeAfterScan(a: Slots, id: string, n: nat)
    requires SlotsOk(a) && !Full(a) && IsFirstFree(a.owners, a.hint, n)
    ensures var idx := AdvanceBy(a.hint, n);
            Take(a, id) == Slots(Advance(idx), a.idxs[id := idx], a.owners[idx := id])
  {
    FirstFreeUnique(a.owners, a.hint, n, ScanLength(a));
  }

  lemma FullMeansEverySlotTaken(a: Slots)
    requires SlotsOk(a)
    ensures Full(a) <==> forall idx :: InRange(idx) ==> idx in a.owners
  {
    FullIff(a.owners.Keys);
    assert |a.owners.Keys| == |a.owners|;
  }

  /** An allocation keeps the maps inverse exactly when the session holds no slot yet. */
  lemma TakeInverseIff(a: Slots, id: string)
    requires Inverse(a) && !Full(a)
    ensures Inverse(Take(a, id)) <==> id !in a.idxs
  {
    var b := Take(a, id);
    if id in a.idxs {
      assert a.idxs[id] in b.owners && b.owners[a.idxs[id]] == id;
    }
  }

  lemma ReleaseInverse(a: Slots, id: string)
    requires Inverse(a)
    ensures Inverse(Release(a, id))
  {
  }

  lemma TakeKeepsOthers(a: Slots, id: string, other: string)
    requires SlotsOk(a) && other in a.idxs && other != id
    ensures other in Take(a, id).idxs && Take(a, id).idxs[other] == a.idxs[other]
    ensures a.idxs[other] in Take(a, id).owners && Take(a, id).owners[a.idxs[other]] == other
  {
  }

  /** A release never frees a slot of another session, however late or often it comes. */
  lemma ReleaseKeepsOthers(a: Slots, id: string, other: string)
    requires SlotsOk(a) && other in a.idxs && other != id
    ensures other in Release(a, id).idxs && Release(a, id).idxs[other] == a.idxs[other]
    ensures a.idxs[other] in Release(a, id).owners && Release(a, id).owners[a.idxs[other]] == other
  {
  }

  /** Terminating a session gives back exactly what its creation took, except that the hint moved on. */
  lemma ReleaseUndoesTake(a: Slots, id: string)
    requires SlotsOk(a) && id !in a.idxs && !Full(a)
    ensures Release(Take(a, id), id) == a.(hint := Take(a, id).hint)
  {
    var b := Take(a, id);
    assert b.idxs - {id} == a.idxs;
    assert b.owners - {b.idxs[id]} == a.owners;
  }

  // ---- Tunnel addresses ----

  function TunnelIP(idx: TunnelIndex, role: string): string {
    "10" + "." + Decimal(idx.major) + "." + Decimal(idx.minor) + "." + role
  }

  function ProviderIP(idx: TunnelIndex): string { TunnelIP(idx, "1") }
  function RenterIP(idx: TunnelIndex): string { TunnelIP(idx, "2") }

  lemma SplitFour(a: string, b: string, c: string, d: string)
    requires '.' !in a && '.' !in b && '.' !in c && '.' !in d
    ensures Split(a + "." + b + "." + c + "." + d, '.') == [a, b, c, d]
  {
    var cd := c + ['.'] + d;
    var bcd := b + ['.'] + cd;
    SplitWhole(d, '.');
    SplitField(c, d, '.');
    SplitField(b, cd, '.');
    SplitField(a, bcd, '.');
    assert a + "." + b + "." + c + "." + d == a + ['.'] + bcd;
  }

  lemma TunnelIPFields(idx: TunnelIndex, role: string)
    requires '.' !in role
    ensures Split(TunnelIP(idx, role), '.') == ["10", Decimal(idx.major), Decimal(idx.minor), role]
  {
    DecimalHasNo(idx.major, '.');
    DecimalHasNo(idx.minor, '.');
    SplitFour("10", Decimal(idx.major), Decimal(idx.minor), role);
  }

  /** The addresses of a slot: the provider's ends in 1, the renter's in 2, and the octets between are the slot's. */
  lemma SlotAddresses(idx: TunnelIndex)
    ensures Split(ProviderIP(idx), '.') == ["10", Decimal(idx.major), Decimal(idx.minor), "1"]
    ensures Split(RenterIP(idx), '.') == ["10", Decimal(idx.major), Decimal(idx.minor), "2"]
  {
    TunnelIPFields(idx, "1");
    TunnelIPFields(idx, "2");
  }

  /** The address space in numbers. */
  lemma AddressSpace(idx: TunnelIndex)
    ensures MAX_SLOTS == 7112 && FIRST == TunnelIndex(99, 1)
    ensures InRange(idx) <==> 99 <= idx.major <= 126 && 1 <= idx.minor <= 254
    ensures InRange(idx) ==>
              Advance(idx) == if idx.minor < 254 then TunnelIndex(idx.major, idx.minor + 1)
                              else if idx.major < 126 then TunnelIndex(idx.major + 1, 1) else TunnelIndex(99, 1)
  {
  }

  /** Two printed tunnel addresses are equal only for the same slot and the same role. */
  lemma TunnelIPInjective(a: TunnelIndex, ra: string, b: TunnelIndex, rb: string)
    requires '.' !in ra && '.' !in rb
    ensures TunnelIP(a, ra) == TunnelIP(b, rb) <==> a == b && ra == rb
  {
    if TunnelIP(a, ra) == TunnelIP(b, rb) {
      TunnelIPFields(a, ra);
      TunnelIPFields(b, rb);
      var fa := ["10", Decimal(a.major), Decimal(a.minor), ra];
      var fb := ["10", Decimal(b.major), Decimal(b.minor), rb];
      assert fa[1] == fb[1] && fa[2] == fb[2] && fa[3] == fb[3];
      DecimalRoundTrip(a.major);
      DecimalRoundTrip(b.major);
      DecimalRoundTrip(a.minor);
      DecimalRoundTrip(b.minor);
    }
  }

  // ---- The allocator as the registry holds it ----

  datatype Allocation = Exhausted | Allocated(providerIP: string, renterIP: string)

  class TunnelAllocator {
    var nextTunnelHint: TunnelIndex
    var usedTunnelIdxs: map<string, TunnelIndex>
    var usedTunnelSet: map<TunnelIndex, string>

    ghost function View(): Slots
      reads this
    {
      Slots(nextTunnelHint, usedTunnelIdxs, usedTunnelSet)
    }

    constructor ()
      ensures View() == EMPTY
    {
      nextTunnelHint := FIRST;
      usedTunnelIdxs := map[];
      usedTunnelSet := map[];
    }

    /** `advances` counts the turns of the scan loop. */
    method AllocateTunnelIPs(sessionID: string) returns (r: Allocation, ghost advances: nat)
      requires SlotsOk(View())
      modifies this
      ensures SlotsOk(View())
      ensures View() == Take(old(View()), sessionID)
      ensures r.Exhausted? <==> forall idx :: InRange(idx) ==> idx in old(usedTunnelSet)
      ensures advances <= |old(usedTunnelSet)|
      ensures r.Allocated? ==>
                && IsFirstFree(old(usedTunnelSet), old(nextTunnelHint), advances)
                && sessionID in usedTunnelIdxs
                && usedTunnelIdxs[sessionID] == AdvanceBy(old(nextTunnelHint), advances)
                && var idx := usedTunnelIdxs[sessionID];
                && r.providerIP == ProviderIP(idx) && r.renterIP == RenterIP(idx)
                && Split(r.providerIP, '.') == ["10", Decimal(idx.major), Decimal(idx.minor), "1"]
                && Split(r.renterIP, '.') == ["10", Decimal(idx.major), Decimal(idx.minor), "2"]
    {
      advances := 0;
      ghost var before := View();
      FullMeansEverySlotTaken(before);
      if |usedTunnelSet| >= MAX_SLOTS {
        return Exhausted, 0;
      }
      var candidate := nextTunnelHint;
      while candidate in usedTunnelSet
        invariant View() == before
        invariant candidate == AdvanceBy(before.hint, advances) && advances <= |before.owners|
        invariant forall k :: 0 <= k < advances ==> AdvanceBy(before.hint, k) in before.owners
        decreases |before.owners| - advances
      {
        assert |before.owners.Keys| == |before.owners|;
        ScanBound(before.owners.Keys, before.hint, advances + 1);
        candidate := Advance(candidate);
        advances := advances + 1;
      }
      TakeAfterScan(before, sessionID, advances);
      usedTunnelIdxs := usedTunnelIdxs[sessionID := candidate];
      usedTunnelSet := usedTunnelSet[candidate := sessionID];
      nextTunnelHint := Advance(candidate);
      SlotAddresses(candidate);
      r := Allocated(ProviderIP(candidate), RenterIP(candidate));
    }

    method ReclaimTunnelIndex(sessionID: string)
      requires SlotsOk(View())
      modifies this
      ensures SlotsOk(View())
      ensures View() == Release(old(View()), sessionID)
    {
      if sessionID in usedTunnelIdxs {
        usedTunnelSet := usedTunnelSet - {usedTunnelIdxs[sessionID]};
        usedTunnelIdxs := usedTunnelIdxs - {sessionID};
      }
    }
  }
}
