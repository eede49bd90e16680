/** `RingBuffer` of `utils.rs`. */
module Rings {
  import opened Basics

  /** The slot after `i`. */
  function Advance(i: nat, n: nat): (r: nat)
    requires i < n
    ensures r == (if i + 1 == n then 0 else i + 1)
  {
    (i + 1) % n
  }

  lemma WrapAround(x: nat, n: nat)
    requires 0 < n <= x < 2 * n
    ensures x % n == x - n
  {}

  /** The number of slots from `start` up to `end`, going round. */
  function Distance(start: nat, end: nat, n: nat): (r: nat)
    requires start < n && end < n
    ensures r == (if start <= end then end - start else n - start + end)
  {
    if start <= end then WrapAround(end + n - start, n); (end + n - start) % n else (end + n - start) % n
  }

  /** A ring of `data.Length` slots, one of which always stays free. */
  class RingBuffer<T> {
    const data: array<T>
    var start: nat
    var end: nat

    ghost predicate Valid()
      reads this
    {
      start < data.Length && end < data.Length
    }

    ghost function Contents(): seq<T>
      requires Valid()
      reads this, data
    {
      if start <= end then data[start..end] else data[start..] + data[..end]
    }

    constructor (capacity: nat, default: T)
      requires capacity > 0
      ensures Valid() && fresh(data) && data.Length == capacity && Contents() == []
    {
      data := new T[capacity](_ => default);
      start, end := 0, 0;
    }

    method Size() returns (n: nat)
      requires Valid()
      ensures n == |Contents()|
    {
      n := Distance(start, end, data.Length);
    }

    method Empty() returns (r: bool)
      requires Valid()
      ensures r <==> Contents() == []
    {
      r := end == start;
    }

    method Full() returns (r: bool)
      requires Valid()
      ensures r <==> |Contents()| + 1 == data.Length
    {
      r := Advance(end, data.Length) == start;
    }

    method Push(item: T) returns (ok: bool)
      requires Valid()
      modifies this, data
      ensures Valid()
      ensures ok <==> |old(Contents())| + 1 < data.Length
      ensures Contents() == if ok then old(Contents()) + [item] else old(Contents())
    {
      var full := Full();
      if full {
        return false;
      }
      data[end] := item;
      end := Advance(end, data.Length);
      return true;
    }

    method Pop() returns (r: Option<T>)
      requires Valid()
      modifies this
      ensures Valid()
      ensures r.None? <==> old(Contents()) == []
      ensures r.None? ==> Contents() == []
      ensures r.Some? ==> old(Contents()) == [r.value] + Contents()
    {
      if end == start {
        return None;
      }
      r := Some(data[start]);
      start := Advance(start, data.Length);
    }
  }
}
