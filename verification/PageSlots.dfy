/** The page-slot bookkeeping of `AsyncMemoryAllocator` in `memory_allocator.rs`. The mapping system
    calls themselves are left out; they have no result that the code looks at. */
module PageSlots {
  import opened Basics

  const START_ADDR: nat := 0x200_0000
  const END_ADDR: nat := 0x201_0000
  const PAGE_SIZE: nat := 0x1000
  const MAX_PAGE_NUM: nat := (END_ADDR - START_ADDR) / PAGE_SIZE

  /** Slots never used yet start at `current`; `recycled` is a stack of freed slots; a slot that maps
      nothing has address 0. */
  datatype Slots = Slots(current: nat, recycled: seq<nat>, mapped: seq<nat>)

  predicate ValidAddress(v: nat) { START_ADDR <= v < END_ADDR && v % PAGE_SIZE == 0 }

  /** The slot that `alloc_slot` hands out. */
  function NextSlot(s: Slots): Option<nat> {
    if s.recycled != [] then Some(s.recycled[|s.recycled| - 1])
    else if s.current < |s.mapped| then Some(s.current) else None
  }

  function AfterAlloc(s: Slots): Slots {
    if s.recycled != [] then s.(recycled := s.recycled[..|s.recycled| - 1])
    else if s.current < |s.mapped| then s.(current := s.current + 1) else s
  }

  function Map(s: Slots, v: nat): Slots {
    if !ValidAddress(v) || NextSlot(s).None? then s
    else
      var i := NextSlot(s).value;
      if i < |s.mapped| then AfterAlloc(s).(mapped := s.mapped[i := v]) else s
  }

  function Unmap(s: Slots, v: nat): Slots {
    var i := FirstFrom(s.mapped, v, 0);
    if i == |s.mapped| then s else s.(mapped := s.mapped[i := 0], recycled := s.recycled + [i])
  }

  // ------------------------------------------------------------------ the code

  class Allocator {
    var current: nat
    var recycled: seq<nat>
    const mapped: array<nat>

    ghost function View(): Slots
      reads this, mapped
    {
      Slots(current, recycled, mapped[..])
    }

    /** Recycled slots exist. That is all that the code needs, and every operation keeps it. */
    ghost predicate Valid()
      reads this, mapped
    {
      forall k :: 0 <= k < |recycled| ==> recycled[k] < mapped.Length
    }

    constructor ()
      ensures Valid() && fresh(mapped) && View() == Slots(0, [], seq(MAX_PAGE_NUM, _ => 0))
    {
      current, recycled := 0, [];
      mapped := new nat[MAX_PAGE_NUM](_ => 0);
    }

    /** Hands out a slot that maps nothing, for good: with the bookkeeping in order it fails exactly if every
        slot is mapped, and what it hands out is not recycled and not fresh any more. */
    method AllocSlot() returns (r: Option<nat>)
      requires Valid()
      modifies this
      ensures Valid() && (r.Some? ==> r.value < mapped.Length)
      ensures Inv(old(View())) ==> (r.None? <==> AllMapped(View()))
      ensures Inv(old(View())) && r.Some? ==> Reserves(View(), r.value)
      ensures r == NextSlot(old(View())) && View() == AfterAlloc(old(View()))
    {
      if Inv(View()) { NextSlotIsFree(View()); }
      if recycled != [] {
        r := Some(recycled[|recycled| - 1]);
        recycled := recycled[..|recycled| - 1];
      } else if current < mapped.Length {
        current := current + 1;
        r := Some(current - 1);
      } else {
        r := None;
      }
    }

    method MapVaddr(v: nat)
      requires Valid()
      modifies this, mapped
      ensures Valid() && View() == Map(old(View()), v)
    {
      if ValidAddress(v) {
        var slot := AllocSlot();
        if slot.Some? {
          mapped[slot.value] := v;
        }
      }
    }

    method UnmapVaddr(v: nat)
      requires Valid()
      modifies this, mapped
      ensures Valid() && View() == Unmap(old(View()), v)
    {
      for i := 0 to mapped.Length
        invariant Valid() && View() == old(View())
        invariant FirstFrom(mapped[..], v, i) == FirstFrom(mapped[..], v, 0)
      {
        if mapped[i] == v {
          mapped[i] := 0;
          recycled := recycled + [i];
          return;
        }
      }
    }
  }

  // ------------------------------------------------------------------ the invariant

  /** The recycled slots are distinct, and they are exactly the slots below `current` that map nothing;
      no slot from `current` on maps anything. */
  ghost predicate Inv(s: Slots) {
    && s.current <= |s.mapped|
    && (forall i, j :: 0 <= i < j < |s.recycled| ==> s.recycled[i] != s.recycled[j])
    && (forall i :: i in s.recycled <==> 0 <= i < s.current && s.mapped[i] == 0)
    && (forall i :: s.current <= i < |s.mapped| ==> s.mapped[i] == 0)
  }

  /** Slot `r` is in use but maps nothing yet; otherwise the bookkeeping is in order. */
  ghost predicate Reserves(s: Slots, r: nat) {
    && r < s.current <= |s.mapped| && s.mapped[r] == 0 && r !in s.recycled
    && (forall i, j :: 0 <= i < j < |s.recycled| ==> s.recycled[i] != s.recycled[j])
    && (forall i :: i in s.recycled <==> 0 <= i < s.current && s.mapped[i] == 0 && i != r)
    && (forall i :: s.current <= i < |s.mapped| ==> s.mapped[i] == 0)
  }

  ghost predicate AllMapped(s: Slots) { forall i :: 0 <= i < |s.mapped| ==> s.mapped[i] != 0 }

  /** With the bookkeeping in order, a slot is found unless all are mapped, and it maps nothing. */
  lemma NextSlotIsFree(s: Slots)
    requires Inv(s)
    ensures NextSlot(s).None? <==> AllMapped(s)
    ensures NextSlot(s).Some? ==> Reserves(AfterAlloc(s), NextSlot(s).value)
  {
    if NextSlot(s).Some? {
      var r, t := NextSlot(s).value, AfterAlloc(s);
      assert r in s.recycled || r == s.current;
      if s.recycled != [] {
        assert s.recycled == t.recycled + [r];
        forall i | i in t.recycled ensures i != r {
          var k :| 0 <= k < |t.recycled| && t.recycled[k] == i;
          assert s.recycled[k] == i;
        }
      }
    }
  }

  /** How often an address is mapped. */
  function Count(m: seq<nat>, v: nat): nat {
    if m == [] then 0 else (if m[0] == v then 1 else 0) + Count(m[1..], v)
  }

  /** The number of slots that map something. */
  function Size(m: seq<nat>): nat {
    if m == [] then 0 else (if m[0] != 0 then 1 else 0) + Size(m[1..])
  }

  lemma {:induction false} CountUpdate(m: seq<nat>, i: nat, a: nat, v: nat)
    requires i < |m|
    ensures Count(m[i := a], v) + (if m[i] == v then 1 else 0) == Count(m, v) + (if a == v then 1 else 0)
    ensures Size(m[i := a]) + (if m[i] != 0 then 1 else 0) == Size(m) + (if a != 0 then 1 else 0)
  {
    if i == 0 {
      assert m[i := a][1..] == m[1..];
    } else {
      assert m[i := a][1..] == m[1..][i - 1 := a];
      CountUpdate(m[1..], i - 1, a, v);
    }
  }

  lemma {:induction false} SizeFull(m: seq<nat>)
    ensures Size(m) <= |m|
    ensures Size(m) == |m| <==> forall i :: 0 <= i < |m| ==> m[i] != 0
  {
    if m != [] {
      SizeFull(m[1..]);
      if forall i :: 0 <= i < |m| ==> m[i] != 0 {
        assert forall i :: 0 <= i < |m[1..]| ==> m[1..][i] == m[i + 1];
      } else if m[0] != 0 {
        var i :| 0 <= i < |m| && m[i] == 0;
        assert m[1..][i - 1] == 0;
      }
    }
  }

  lemma {:induction false} CountFind(m: seq<nat>, v: nat)
    ensures Count(m, v) == 0 <==> v !in m
  {
    if m != [] {
      CountFind(m[1..], v);
      assert m == [m[0]] + m[1..];
    }
  }

  /** A valid map adds one address unless all slots are mapped; an invalid one changes nothing. */
  lemma MapAdds(s: Slots, v: nat, w: nat)
    requires Inv(s) && w != 0
    ensures Inv(Map(s, v))
    ensures ValidAddress(v) && !AllMapped(s) ==>
              && Count(Map(s, v).mapped, w) == Count(s.mapped, w) + (if v == w then 1 else 0)
              && Size(Map(s, v).mapped) == Size(s.mapped) + 1
    ensures !ValidAddress(v) || AllMapped(s) ==> Map(s, v) == s
  {
    if ValidAddress(v) && NextSlot(s).Some? {
      var i := NextSlot(s).value;
      assert i in s.recycled || i == s.current;
      CountUpdate(s.mapped, i, v, w);
    }
  }

  /** An unmap removes one occurrence of the address, if there is one. */
  lemma UnmapRemoves(s: Slots, v: nat, w: nat)
    requires Inv(s) && v != 0 && w != 0
    ensures Inv(Unmap(s, v))
    ensures Count(s.mapped, v) == 0 ==> Unmap(s, v) == s
    ensures Count(s.mapped, v) > 0 ==>
              && Count(Unmap(s, v).mapped, w) == Count(s.mapped, w) - (if v == w then 1 else 0)
              && Size(Unmap(s, v).mapped) == Size(s.mapped) - 1
  {
    var i := FirstFrom(s.mapped, v, 0);
    CountFind(s.mapped, v);
    if i < |s.mapped| { CountUpdate(s.mapped, i, 0, w); }
  }

  /** Address 0 matches slots that map nothing: unmapping it breaks the bookkeeping unless there are none. */
  lemma UnmapKeepsIff(s: Slots, v: nat)
    requires Inv(s)
    ensures Inv(Unmap(s, v)) <==> v != 0 || AllMapped(s)
  {
    if v != 0 {
      UnmapRemoves(s, v, v);
    } else {
      var i := FirstFrom(s.mapped, 0, 0);
      if i < |s.mapped| {
        var t := Unmap(s, 0);
        assert t.recycled[|s.recycled|] == i;
        if i in s.recycled {
          var k :| 0 <= k < |s.recycled| && s.recycled[k] == i;
          assert t.recycled[k] == i;
        } else {
          assert i in t.recycled && i >= s.current;
        }
      }
    }
  }

  // ------------------------------------------------------------------ any sequence of operations

  datatype Op = MapOp(v: nat) | UnmapOp(v: nat)

  function Do(s: Slots, op: Op): Slots {
    match op
    case MapOp(v) => Map(s, v)
    case UnmapOp(v) => Unmap(s, v)
  }

  function Apply(s: Slots, ops: seq<Op>): Slots
    decreases |ops|
  {
    if ops == [] then s
    else Apply(Do(s, ops[0]), ops[1..])
  }

  /** A bag of at most `capacity` addresses: how often each is in it, and how many there are. */
  datatype Bag = Bag(count: map<nat, nat>, size: nat)

  function Times(b: Bag, v: nat): nat { if v in b.count then b.count[v] else 0 }

  function BagStep(b: Bag, capacity: nat, op: Op): Bag {
    match op
    case MapOp(v) =>
      if ValidAddress(v) && b.size < capacity then Bag(b.count[v := Times(b, v) + 1], b.size + 1) else b
    case UnmapOp(v) =>
      if Times(b, v) > 0 && b.size > 0 then Bag(b.count[v := Times(b, v) - 1], b.size - 1) else b
  }

  function ApplyBag(b: Bag, capacity: nat, ops: seq<Op>): Bag
    decreases |ops|
  {
    if ops == [] then b else ApplyBag(BagStep(b, capacity, ops[0]), capacity, ops[1..])
  }

  /** The slots hold exactly the addresses of the bag. */
  ghost predicate Holds(s: Slots, b: Bag) {
    && Size(s.mapped) == b.size
    && forall v :: v != 0 ==> Count(s.mapped, v) == Times(b, v)
  }

  lemma {:induction false} CountWithinSize(m: seq<nat>, v: nat)
    requires v != 0
    ensures Count(m, v) <= Size(m)
  {
    if m != [] { CountWithinSize(m[1..], v); }
  }

  lemma StepHoldsAt(s: Slots, b: Bag, op: Op, w: nat)
    requires Inv(s) && (op.UnmapOp? ==> op.v != 0) && w != 0
    requires op.v != 0 ==> Count(s.mapped, op.v) == Times(b, op.v)
    requires Size(s.mapped) == b.size && Count(s.mapped, w) == Times(b, w)
    ensures Inv(Do(s, op)) && Size(Do(s, op).mapped) == BagStep(b, |s.mapped|, op).size
    ensures Count(Do(s, op).mapped, w) == Times(BagStep(b, |s.mapped|, op), w)
  {
    SizeFull(s.mapped);
    match op {
      case MapOp(v) => MapAdds(s, v, w);
      case UnmapOp(v) =>
        CountWithinSize(s.mapped, v);
        UnmapRemoves(s, v, w);
    }
  }

  lemma StepHolds(s: Slots, b: Bag, op: Op)
    requires Inv(s) && Holds(s, b) && (op.UnmapOp? ==> op.v != 0)
    ensures Inv(Do(s, op)) && |Do(s, op).mapped| == |s.mapped| && Holds(Do(s, op), BagStep(b, |s.mapped|, op))
  {
    StepHoldsAt(s, b, op, 1);
    forall w | w != 0 ensures Count(Do(s, op).mapped, w) == Times(BagStep(b, |s.mapped|, op), w) {
      StepHoldsAt(s, b, op, w);
    }
  }

  /** Over any sequence of maps, and unmaps of non-zero addresses, the allocator behaves as a bounded bag
      of addresses and keeps its slots disjoint. */
  lemma {:induction false} AllocatorIsABag(s: Slots, b: Bag, ops: seq<Op>)
    requires Inv(s) && Holds(s, b) && forall k :: 0 <= k < |ops| && ops[k].UnmapOp? ==> ops[k].v != 0
    ensures Inv(Apply(s, ops)) && Holds(Apply(s, ops), ApplyBag(b, |s.mapped|, ops))
    decreases |ops|
  {
    if ops != [] {
      StepHolds(s, b, ops[0]);
      AllocatorIsABag(Do(s, ops[0]), BagStep(b, |s.mapped|, ops[0]), ops[1..]);
    }
  }

  lemma {:induction false} ZerosMapNothing(m: seq<nat>, v: nat)
    requires v != 0 && forall i :: 0 <= i < |m| ==> m[i] == 0
    ensures Size(m) == Count(m, v) == 0
  {
    if m != [] { ZerosMapNothing(m[1..], v); }
  }

  /** From its creation on, the allocator is a bag of at most MAX_PAGE_NUM addresses. */
  lemma NewAllocatorIsABag(ops: seq<Op>)
    requires forall k :: 0 <= k < |ops| && ops[k].UnmapOp? ==> ops[k].v != 0
    ensures var s := Apply(Slots(0, [], seq(MAX_PAGE_NUM, _ => 0)), ops);
      Inv(s) && Holds(s, ApplyBag(Bag(map[], 0), MAX_PAGE_NUM, ops))
  {
    var s := Slots(0, [], seq(MAX_PAGE_NUM, _ => 0));
    forall v: nat | v != 0 ensures Size(s.mapped) == Count(s.mapped, v) == 0 { ZerosMapNothing(s.mapped, v); }
    assert Size(s.mapped) == Count(s.mapped, 1) == 0;
    AllocatorIsABag(s, Bag(map[], 0), ops);
  }

  // ------------------------------------------------------------------ which addresses, which slots

  /** The address of the `k`-th page of the region. */
  function PageAddress(k: nat): nat { START_ADDR + k * PAGE_SIZE }

  /** The addresses that can be mapped are those of the MAX_PAGE_NUM pages of the region. */
  lemma ValidAddressIff(v: nat)
    ensures ValidAddress(v) <==> exists k: nat :: k < MAX_PAGE_NUM && v == PageAddress(k)
  {
    if ValidAddress(v) {
      var k := (v - START_ADDR) / PAGE_SIZE;
      assert k < MAX_PAGE_NUM && v == PageAddress(k);
    }
  }

  ghost predicate OnPages(s: Slots) {
    forall i :: 0 <= i < |s.mapped| && s.mapped[i] != 0 ==> exists k: nat :: k < MAX_PAGE_NUM && s.mapped[i] == PageAddress(k)
  }

  /** Whatever is mapped and unmapped, only pages of the region are ever mapped. */
  lemma {:induction false} OnlyPagesAreMapped(s: Slots, ops: seq<Op>)
    requires OnPages(s)
    ensures OnPages(Apply(s, ops))
    decreases |ops|
  {
    if ops != [] {
      ValidAddressIff(ops[0].v);
      OnlyPagesAreMapped(Do(s, ops[0]), ops[1..]);
    }
  }

  /** A map right after an unmap takes the slot just freed; mapping the same page again restores everything. */
  lemma MapReusesFreedSlot(s: Slots, v: nat, w: nat)
    requires v in s.mapped && ValidAddress(w)
    ensures var i := FirstFrom(s.mapped, v, 0);
      && i < |s.mapped|
      && Map(Unmap(s, v), w) == s.(mapped := s.mapped[i := w])
    ensures ValidAddress(v) ==> Map(Unmap(s, v), v) == s
  {
    var i := FirstFrom(s.mapped, v, 0);
    var t := Unmap(s, v);
    assert t.recycled[..|t.recycled| - 1] == s.recycled;
    assert s.mapped[i := 0][i := w] == s.mapped[i := w];
    assert s.mapped[i := 0][i := v] == s.mapped;
  }

  /** Slots freed one after the other are reused in the opposite order. */
  lemma LastFreedFirstReused(s: Slots, u: nat, v: nat, x: nat, y: nat)
    requires Inv(s) && u in s.mapped && v in s.mapped && u != v && u != 0 && v != 0 && ValidAddress(x) && ValidAddress(y)
    ensures var i, j := FirstFrom(s.mapped, u, 0), FirstFrom(s.mapped, v, 0);
      && i < |s.mapped| && j < |s.mapped|
      && Map(Map(Unmap(Unmap(s, u), v), x), y) == s.(mapped := s.mapped[j := x][i := y])
  {
    var i, j := FirstFrom(s.mapped, u, 0), FirstFrom(s.mapped, v, 0);
    var t := Unmap(s, u);
    assert t.mapped[j] == v;
    assert FirstFrom(t.mapped, v, 0) == j;
    MapReusesFreedSlot(t, v, x);
    var m := Map(Unmap(t, v), x);
    assert m == t.(mapped := t.mapped[j := x]);
    assert t.recycled == s.recycled + [i] && m.recycled[..|m.recycled| - 1] == s.recycled;
    assert s.mapped[i := 0][j := x][i := y] == s.mapped[j := x][i := y];
  }
}
