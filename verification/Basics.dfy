/** Result types, a search and two lemmas shared by the other modules. */
module Basics {

  datatype Option<+T> = None | Some(value: T)

  /** The result of code that may panic: an assertion, an `unwrap` or an index check that fails. */
  datatype Outcome<+T> = Ok(value: T) | Panic {
    predicate IsFailure() { Panic? }
    function PropagateFailure<U>(): Outcome<U> requires Panic? { Panic }
    function Extract(): T requires Ok? { value }
  }

  /** The least position from `i` on that holds `x`, the length if there is none. */
  function FirstFrom<T(==)>(s: seq<T>, x: T, i: nat): (r: nat)
    requires i <= |s|
    ensures i <= r <= |s| && (r < |s| ==> s[r] == x)
    ensures forall j :: i <= j < r ==> s[j] != x
    decreases |s| - i
  {
    if i == |s| || s[i] == x then i else FirstFrom(s, x, i + 1)
  }

  /** Two steps of a FIFO queue in a row: what was in it and what comes in is what goes out and what stays. */
  lemma Chain<T>(u: seq<T>, v: seq<T>, w: seq<T>, x: seq<T>, y: seq<T>, z: seq<T>, e: seq<T>)
    requires u + v == w + x && x + y == z + e
    ensures u + (v + y) == (w + z) + e
  {
    assert u + (v + y) == (u + v) + y;
    assert (w + x) + y == w + (x + y);
    assert w + (z + e) == (w + z) + e;
  }

  /** A set of numbers below `n` has at most `n` elements, and all of them if it has `n`. */
  lemma {:induction false} AllBelow(ids: set<nat>, n: nat)
    requires forall i :: i in ids ==> i < n
    ensures |ids| <= n
    ensures |ids| == n ==> forall i :: 0 <= i < n ==> i in ids
  {
    if n == 0 {
      assert ids == {};
    } else {
      AllBelow(ids - {n - 1}, n - 1);
      if n - 1 in ids {
        assert ids == ids - {n - 1} + {n - 1};
      } else {
        assert ids == ids - {n - 1};
      }
    }
  }
}
