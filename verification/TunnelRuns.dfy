/** Every run of allocations and reclaims: when a tunnel slot can be handed out again. */
module TunnelRuns {
  import opened Tunnel

  datatype Call = Allocate(id: string) | Reclaim(id: string)

  ghost function Apply(a: Slots, c: Call): (b: Slots)
    requires SlotsOk(a)
    ensures SlotsOk(b)
  {
    match c
    case Allocate(id) => Take(a, id)
    case Reclaim(id) => Release(a, id)
  }

  /** `states[i + 1]` is what call `i` makes of `states[i]`. */
  ghost predicate IsRun(states: seq<Slots>, calls: seq<Call>) {
    && |states| == |calls| + 1
    && (forall i :: 0 <= i < |states| ==> SlotsOk(states[i]))
    && (forall i {:trigger calls[i]} :: 0 <= i < |calls| ==> states[i + 1] == Apply(states[i], calls[i]))
  }

  /** Call `i` hands out `slot`. */
  ghost predicate HandsOut(states: seq<Slots>, calls: seq<Call>, i: nat, slot: TunnelIndex)
    requires IsRun(states, calls) && i < |calls|
  {
    calls[i].Allocate? && !Full(states[i]) && NextSlot(states[i]) == slot
  }

  /** `slot` was in use at some moment after call `i` and no later than just before call `j`. */
  ghost predicate InUseBetween(states: seq<Slots>, i: nat, j: nat, slot: TunnelIndex) {
    exists k :: i < k <= j && k < |states| && slot in states[k].owners
  }

  lemma ScanPassesTaken(a: Slots, from: TunnelIndex, before: nat)
    requires SlotsOk(a) && !Full(a) && a.hint == AdvanceBy(from, before)
    ensures forall d :: before <= d < before + ScanLength(a) ==> AdvanceBy(from, d) in a.owners
    ensures AdvanceBy(from, before + ScanLength(a)) == NextSlot(a)
  {
    var n := ScanLength(a);
    AdvanceByAdd(from, before, n);
    forall d | before <= d < before + n
      ensures AdvanceBy(from, d) in a.owners
    {
      AdvanceByAdd(from, before, d - before);
      assert AdvanceBy(a.hint, d - before) in a.owners;
    }
  }

  /** One call moves the hint forward by `moved - before` slots, each in use just before or just after it. */
  lemma CallMovesForward(a: Slots, c: Call, b: Slots, from: TunnelIndex, before: nat) returns (moved: nat)
    requires SlotsOk(a) && b == Apply(a, c) && a.hint == AdvanceBy(from, before)
    ensures b.hint == AdvanceBy(from, moved) && before <= moved
    ensures forall d :: before <= d < moved ==> AdvanceBy(from, d) in a.owners || AdvanceBy(from, d) in b.owners
    ensures c.Allocate? && !Full(a) ==>
              && moved > 0 && AdvanceBy(from, moved - 1) == NextSlot(a)
              && (forall d :: before <= d < moved - 1 ==> AdvanceBy(from, d) in a.owners)
  {
    moved := before;
    if c.Allocate? && !Full(a) {
      ScanPassesTaken(a, from, before);
      moved := before + ScanLength(a) + 1;
    }
  }

  /** Every slot within `moved` advances of `from` was in use between `i` and `j`. */
  ghost predicate Passed(states: seq<Slots>, i: nat, j: nat, from: TunnelIndex, moved: nat) {
    forall d :: 0 <= d < moved ==> var slot := AdvanceBy(from, d); InUseBetween(states, i, j, slot)
  }

  lemma PassedOne(states: seq<Slots>, i: nat, j: nat, from: TunnelIndex, moved: nat, d: nat)
    requires Passed(states, i, j, from, moved) && d < moved
    ensures InUseBetween(states, i, j, AdvanceBy(from, d))
  {
  }

  lemma PassedMore(states: seq<Slots>, i: nat, j: nat, from: TunnelIndex, before: nat, moved: nat)
    requires i < j < |states| && Passed(states, i, j, from, before) && before <= moved
    requires forall d :: before <= d < moved ==>
                           || AdvanceBy(from, d) in states[j].owners
                           || (j + 1 < |states| && AdvanceBy(from, d) in states[j + 1].owners)
    ensures Passed(states, i, j + 1, from, moved)
  {
    forall d | 0 <= d < moved
      ensures InUseBetween(states, i, j + 1, AdvanceBy(from, d))
    {
      if d < before {
        PassedOne(states, i, j, from, before, d);
        var k :| i < k <= j && k < |states| && AdvanceBy(from, d) in states[k].owners;
      }
    }
  }

  /** The hint moves forward only, and every slot it has passed since call `i` was in use meanwhile. */
  lemma {:induction false} HintMovesForward(states: seq<Slots>, calls: seq<Call>, i: nat, j: nat) returns (moved: nat)
    requires IsRun(states, calls) && i < j <= |calls|
    ensures states[j].hint == AdvanceBy(states[i + 1].hint, moved)
    ensures Passed(states, i, j, states[i + 1].hint, moved)
  {
    if j == i + 1 {
      return 0;
    }
    var before := HintMovesForward(states, calls, i, j - 1);
    var from := states[i + 1].hint;
    moved := CallMovesForward(states[j - 1], calls[j - 1], states[j], from, before);
    PassedMore(states, i, j - 1, from, before, moved);
  }

  /** Coming back to a slot takes at least a whole turn of the cycle. */
  lemma WholeTurn(slot: TunnelIndex, other: TunnelIndex, total: nat)
    requires InRange(slot) && InRange(other) && other != slot
    requires AdvanceBy(Advance(slot), total) == slot
    ensures InRange(Advance(slot))
    ensures Distance(Advance(slot), other) < total
    ensures AdvanceBy(Advance(slot), Distance(Advance(slot), other)) == other
  {
    AdvanceRank(slot);
    var from := Advance(slot);
    var d := Distance(from, other);
    SingleCycle(from, other, d);
    if total < MAX_SLOTS - 1 {
      SingleCycle(from, slot, total);
    }
  }

  lemma HandedOut(states: seq<Slots>, calls: seq<Call>, i: nat, slot: TunnelIndex)
    requires IsRun(states, calls) && i < |calls| && HandsOut(states, calls, i, slot)
    ensures states[i + 1].hint == Advance(slot) && InRange(slot)
  {
  }

  /** When the allocator is about to hand out the slot just before `from` again, any other slot lies
      behind the hint or is taken. */
  lemma ComingBack(a: Slots, from: TunnelIndex, before: nat, slot: TunnelIndex, other: TunnelIndex) returns (d: nat)
    requires SlotsOk(a) && !Full(a) && a.hint == AdvanceBy(from, before)
    requires InRange(slot) && NextSlot(a) == slot && from == Advance(slot)
    requires InRange(other) && other != slot
    ensures AdvanceBy(from, d) == other
    ensures d < before || other in a.owners
  {
    var moved := CallMovesForward(a, Allocate(""), Take(a, ""), from, before);
    WholeTurn(slot, other, moved - 1);
    d := Distance(from, other);
  }

  /** Delayed reuse: between two times a slot is handed out, every other slot has been in use. */
  lemma DelayedReuse(states: seq<Slots>, calls: seq<Call>, i: nat, j: nat, slot: TunnelIndex, other: TunnelIndex)
    requires IsRun(states, calls) && i < j < |calls|
    requires HandsOut(states, calls, i, slot) && HandsOut(states, calls, j, slot)
    requires InRange(other) && other != slot
    ensures InUseBetween(states, i, j, other)
  {
    HandedOut(states, calls, i, slot);
    var from := states[i + 1].hint;
    var before := HintMovesForward(states, calls, i, j);
    var d := ComingBack(states[j], from, before, slot, other);
    if d < before {
      PassedOne(states, i, j, from, before, d);
    }
  }
}
