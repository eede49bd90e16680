/** From a user interrupt to a deferred wake: `register_recv_cid` and `uintr_handler` of `async_lib.rs`. */
module Interrupts {
  import opened Basics
  import opened Words
  import opened Bitmaps
  import opened Runtime
  import opened ExecutorImpl

  const MAX_UINT_VEC: nat := 64

  /** The ids registered for the set bits of `irqs` below `limit`. */
  function Targets(wakeMap: map<nat, nat>, irqs: Word, limit: nat): (r: set<nat>)
    ensures forall id :: id in r <==> exists v :: 0 <= v < limit && v < |irqs| && irqs[v] && v in wakeMap && wakeMap[v] == id
  {
    set v | v in wakeMap && v < limit && v < |irqs| && irqs[v] :: wakeMap[v]
  }

  /** Every set bit below `limit` is registered for an id that can be deferred. */
  predicate Registered(wakeMap: map<nat, nat>, irqs: Word, limit: nat) {
    forall v :: 0 <= v < limit && v < |irqs| && irqs[v] ==> v in wakeMap && wakeMap[v] < WORD
  }

  lemma TargetsStep(wakeMap: map<nat, nat>, irqs: Word, i: nat)
    requires i < |irqs|
    ensures Targets(wakeMap, irqs, i + 1) ==
            Targets(wakeMap, irqs, i) + (if irqs[i] && i in wakeMap then {wakeMap[i]} else {})
  {
    var a, b := Targets(wakeMap, irqs, i + 1), Targets(wakeMap, irqs, i);
    if irqs[i] && i in wakeMap {
      assert wakeMap[i] in a;
    }
    forall id | id in b ensures id in a {}
  }

  class WakeTable {
    const vectors: IndexAllocator
    var wakeMap: map<nat, nat>

    ghost predicate Valid()
      reads this, vectors, vectors.bitmap
    {
      vectors.Valid() && vectors.size == MAX_UINT_VEC && wakeMap.Keys == vectors.Allocated()
    }

    constructor ()
      ensures Valid() && wakeMap == map[]
    {
      vectors := new IndexAllocator(MAX_UINT_VEC);
      wakeMap := map[];
    }

    /** Registers a receiver under the least unused vector, without touching earlier registrations. */
    method RegisterRecvCid(cid: nat) returns (r: Option<nat>)
      requires Valid()
      modifies this, vectors.bitmap
      ensures Valid()
      ensures r.None? <==> forall v :: 0 <= v < MAX_UINT_VEC ==> v in old(wakeMap)
      ensures r.None? ==> wakeMap == old(wakeMap)
      ensures r.Some? ==> r.value !in old(wakeMap) && wakeMap == old(wakeMap)[r.value := cid]
                          && forall v :: 0 <= v < r.value ==> v in old(wakeMap)
    {
      r := vectors.Allocate();
      if r.Some? {
        wakeMap := wakeMap[r.value := cid];
      }
    }

    /** Defers the wake of the coroutine registered under a vector. */
    method WakeRecvCoroutine(vec: nat, ex: Executor) returns (ok: bool)
      requires ex.Valid()
      modifies ex`delayed
      ensures ex.Valid()
      ensures ok <==> vec in wakeMap && wakeMap[vec] < WORD
      ensures ok ==> ex.View() == old(ex.View()).(pending := old(ex.View()).pending + {wakeMap[vec]})
    {
      if vec !in wakeMap {
        return false;
      }
      ok := ex.DelayWake(wakeMap[vec]);
    }

    /** One turn of the handler's loop. */
    method HandleBit(irqs: Word, local: Word, bit: nat, ex: Executor) returns (ok: bool, next: Word)
      requires ex.Valid() && Shifted(local, irqs, bit) && !IsZero(local) && Registered(wakeMap, irqs, bit)
      modifies ex`delayed
      ensures ex.Valid() && bit < WORD && Shifted(next, irqs, bit + 1)
      ensures ok <==> Registered(wakeMap, irqs, bit + 1)
      ensures ok ==> ex.View() == old(ex.View()).(
                       pending := old(ex.View()).pending + (if irqs[bit] then {wakeMap[bit]} else {}))
    {
      ok, next := true, ShiftRight(local);
      if local[0] {
        ok := WakeRecvCoroutine(bit, ex);
      }
    }

    /** Defers the wakes of exactly the ids registered for the set interrupt bits; panics if and only
        if a set bit is not registered or its id is out of range. */
    method UintrHandler(irqs: Word, ex: Executor) returns (ok: bool)
      requires ex.Valid() && |irqs| == WORD
      modifies ex`delayed
      ensures ex.Valid()
      ensures ok <==> Registered(wakeMap, irqs, WORD)
      ensures ok ==> ex.View() == old(ex.View()).(pending := old(ex.View()).pending + Targets(wakeMap, irqs, WORD))
    {
      ghost var s := ex.View();
      var local := irqs;
      var bit := 0;
      assert s.pending + Targets(wakeMap, irqs, 0) == s.pending;
      while !IsZero(local)
        invariant ex.Valid() && Shifted(local, irqs, bit) && Registered(wakeMap, irqs, bit)
        invariant ex.View() == s.(pending := s.pending + Targets(wakeMap, irqs, bit))
        decreases WORD - bit
      {
        ok, local := HandleBit(irqs, local, bit, ex);
        if !ok {
          return;
        }
        TargetsStep(wakeMap, irqs, bit);
        bit := bit + 1;
      }
      AllSeen(wakeMap, irqs, local, bit);
      return true;
    }
  }

  /** `local` is `irqs` shifted right by `bit` positions. */
  ghost predicate Shifted(local: Word, irqs: Word, bit: nat) {
    && |irqs| == |local| == WORD && bit <= WORD
    && (forall j :: 0 <= j < WORD - bit ==> local[j] == irqs[bit + j])
    && (forall j :: WORD - bit <= j < WORD ==> !local[j])
  }

  lemma AllSeen(wakeMap: map<nat, nat>, irqs: Word, local: Word, bit: nat)
    requires Shifted(local, irqs, bit) && IsZero(local)
    ensures Targets(wakeMap, irqs, WORD) == Targets(wakeMap, irqs, bit)
    ensures Registered(wakeMap, irqs, WORD) <==> Registered(wakeMap, irqs, bit)
  {
    forall v | bit <= v < WORD ensures !irqs[v] {
      assert !local[v - bit];
    }
  }
}
