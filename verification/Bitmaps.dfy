/** The bitmap structures of `utils.rs`: the index allocator and the two-level map of 4096 bits. */
module Bitmaps {
  import opened Words
  import opened Basics

  /** `IndexAllocator<SIZE>`: one bit per index, eight to a byte. */
  class IndexAllocator {
    const size: nat
    const bitmap: array<Word>

    ghost predicate Valid()
      reads this, bitmap
    {
      && bitmap.Length == (size + 7) / 8
      && forall i :: 0 <= i < bitmap.Length ==> |bitmap[i]| == 8
    }

    /** The allocated indices. */
    ghost function Allocated(): (s: set<nat>)
      requires Valid()
      reads this, bitmap
      ensures forall i :: i in s <==> 0 <= i < size && bitmap[i / 8][i % 8]
    {
      set i: nat | i < size && bitmap[i / 8][i % 8]
    }

    constructor (size: nat)
      ensures Valid() && fresh(bitmap) && this.size == size && Allocated() == {}
    {
      this.size := size;
      this.bitmap := new Word[(size + 7) / 8](_ => Zero(8));
      new;
    }

    /** Allocates the least free index; fails only if all are taken. */
    method Allocate() returns (r: Option<nat>)
      requires Valid()
      modifies bitmap
      ensures Valid()
      ensures r.None? <==> (forall i :: 0 <= i < size ==> i in old(Allocated()))
      ensures r.None? ==> Allocated() == old(Allocated())
      ensures r.Some? ==>
                && r.value < size && r.value !in old(Allocated())
                && (forall i :: 0 <= i < r.value ==> i in old(Allocated()))
                && Allocated() == old(Allocated()) + {r.value}
    {
      for i := 0 to size
        invariant Valid() && bitmap[..] == old(bitmap[..])
        invariant forall j :: 0 <= j < i ==> j in old(Allocated())
      {
        if IsZero(And(bitmap[i / 8], OneHot(8, i % 8))) {
          assert !bitmap[i / 8][i % 8] by {
            assert !And(bitmap[i / 8], OneHot(8, i % 8))[i % 8];
          }
          bitmap[i / 8] := Or(bitmap[i / 8], OneHot(8, i % 8));
          assert i !in old(Allocated());
          return Some(i);
        }
      }
      return None;
    }

    /** Frees an index. The index must lie in the bitmap. */
    method Release(index: nat)
      requires Valid() && index / 8 < bitmap.Length
      modifies bitmap
      ensures Valid() && Allocated() == old(Allocated()) - {index}
    {
      bitmap[index / 8] := And(bitmap[index / 8], Not(OneHot(8, index % 8)));
    }
  }

  /** `BitMap4096`: a summary word over 64 words. */
  class BitMap4096 {
    var l1: Word
    const l2: array<Word>

    ghost predicate Valid()
      reads this, l2
    {
      && |l1| == 64 && l2.Length == 64
      && (forall i :: 0 <= i < 64 ==> |l2[i]| == 64)
      && (forall i :: 0 <= i < 64 ==> (l1[i] <==> !IsZero(l2[i])))
    }

    ghost function Members(): (s: set<nat>)
      requires Valid()
      reads this, l2
      ensures forall p :: p in s <==> 0 <= p < 4096 && l2[p / 64][p % 64]
    {
      set p: nat | p < 4096 && l2[p / 64][p % 64]
    }

    constructor ()
      ensures Valid() && fresh(l2) && Members() == {}
    {
      l1 := Zero(64);
      l2 := new Word[64](_ => Zero(64));
      new;
    }

    method Set(pos: nat)
      requires Valid() && pos < 4096
      modifies this, l2
      ensures Valid() && Members() == old(Members()) + {pos}
    {
      var hi, lo := pos / 64, pos % 64;
      l1 := Or(l1, OneHot(64, hi));
      l2[hi] := Or(l2[hi], OneHot(64, lo));
      assert l2[hi][lo];
    }

    method Get(pos: nat) returns (r: bool)
      requires Valid() && pos < 4096
      ensures r <==> pos in Members()
    {
      r := !IsZero(And(l1, OneHot(64, pos / 64))) && !IsZero(And(l2[pos / 64], OneHot(64, pos % 64)));
      assert And(l1, OneHot(64, pos / 64))[pos / 64] == l1[pos / 64];
      assert And(l2[pos / 64], OneHot(64, pos % 64))[pos % 64] == l2[pos / 64][pos % 64];
    }

    method Clear(pos: nat)
      requires Valid() && pos < 4096
      modifies this, l2
      ensures Valid() && Members() == old(Members()) - {pos}
    {
      var hi, lo := pos / 64, pos % 64;
      l2[hi] := And(l2[hi], Not(OneHot(64, lo)));
      if IsZero(l2[hi]) {
        l1 := And(l1, Not(OneHot(64, hi)));
      }
    }

    method FindFirstOne() returns (r: nat)
      requires Valid()
      ensures if Members() == {} then r == 4096 else IsMin(Members(), r)
    {
      var hi := TrailingZeros(l1);
      if hi == 64 {
        return 4096;
      }
      var lo := TrailingZeros(l2[hi]);
      r := hi * 64 + lo;
      assert r in Members();
    }

    method FindFirstZero() returns (r: nat)
      requires Valid()
      ensures r <= 4096 && r !in Members() && forall p :: 0 <= p < r ==> p in Members()
    {
      for hi := 0 to 64
        invariant forall p :: 0 <= p < hi * 64 ==> p in Members()
      {
        var lo := TrailingOnes(l2[hi]);
        if lo < 64 {
          return hi * 64 + lo;
        }
      }
      return 4096;
    }

    /** Removes and returns the least member, which is the first of what remains to be drained. */
    method Fetch() returns (r: Option<nat>)
      requires Valid()
      modifies this, l2
      ensures Valid()
      ensures r.None? <==> old(Members()) == {}
      ensures r.None? ==> Members() == {}
      ensures r.Some? ==> IsMin(old(Members()), r.value) && Members() == old(Members()) - {r.value}
      ensures Drained(old(Members())) == (if r.Some? then [r.value] else []) + Drained(Members())
    {
      var pos := FindFirstOne();
      if pos >= 4096 {
        return None;
      }
      Clear(pos);
      return Some(pos);
    }

    method Empty() returns (r: bool)
      requires Valid()
      ensures r <==> Members() == {}
    {
      r := IsZero(l1);
      if !r {
        var hi :| 0 <= hi < 64 && l1[hi];
        var lo :| 0 <= lo < 64 && l2[hi][lo];
        assert hi * 64 + lo in Members();
      }
    }
  }
}
