/** Machine words as their bits, least significant first, with the operators that the runtime uses. */
module Words {
  import opened Basics

  type Word = seq<bool>

  function Zero(n: nat): (w: Word)
    ensures |w| == n
  {
    seq(n, _ => false)
  }

  /** `1 << p` in a word of `n` bits. */
  function OneHot(n: nat, p: nat): (w: Word)
    requires p < n
    ensures |w| == n && forall i :: 0 <= i < n ==> (w[i] <==> i == p)
  {
    seq(n, i => i == p)
  }

  function And(v: Word, w: Word): (r: Word)
    requires |v| == |w|
    ensures |r| == |v| && forall i :: 0 <= i < |r| ==> (r[i] <==> v[i] && w[i])
  {
    seq(|v|, i requires 0 <= i < |v| => v[i] && w[i])
  }

  function Or(v: Word, w: Word): (r: Word)
    requires |v| == |w|
    ensures |r| == |v| && forall i :: 0 <= i < |r| ==> (r[i] <==> v[i] || w[i])
  {
    seq(|v|, i requires 0 <= i < |v| => v[i] || w[i])
  }

  function Not(w: Word): (r: Word)
    ensures |r| == |w| && forall i :: 0 <= i < |r| ==> (r[i] <==> !w[i])
  {
    seq(|w|, i requires 0 <= i < |w| => !w[i])
  }

  /** `w >> 1`. */
  function ShiftRight(w: Word): (r: Word)
    requires w != []
    ensures |r| == |w| && !r[|r| - 1] && forall i :: 0 <= i < |r| - 1 ==> r[i] == w[i + 1]
  {
    w[1..] + [false]
  }

  predicate IsZero(w: Word) { forall i :: 0 <= i < |w| ==> !w[i] }

  function TrailingZeros(w: Word): nat { FirstFrom(w, true, 0) }
  function TrailingOnes(w: Word): nat { FirstFrom(w, false, 0) }

  /** The positions of a word's one bits. */
  function Ones(w: Word): (s: set<nat>)
    ensures forall i :: i in s <==> 0 <= i < |w| && w[i]
  {
    set i: nat | i < |w| && w[i]
  }

  /** `r` is the least element of `s`. */
  predicate IsMin(s: set<nat>, r: nat) { r in s && forall i :: i in s ==> r <= i }

  lemma SetBit(w: Word, p: nat)
    requires p < |w|
    ensures Ones(Or(w, OneHot(|w|, p))) == Ones(w) + {p}
  {}

  lemma ClearBit(w: Word, p: nat)
    requires p < |w|
    ensures Ones(And(w, Not(OneHot(|w|, p)))) == Ones(w) - {p}
  {}

  lemma TrailingZerosIsMin(w: Word)
    ensures if Ones(w) == {} then TrailingZeros(w) == |w| else IsMin(Ones(w), TrailingZeros(w))
  {
    var r := TrailingZeros(w);
    if r < |w| { assert r in Ones(w); }
  }

  // ------------------------------------------------------------------ draining a set by its least element

  function Min(s: set<nat>): (r: nat)
    requires s != {}
    ensures IsMin(s, r)
  {
    MinExists(s);
    var r :| IsMin(s, r);
    r
  }

  lemma {:induction false} MinExists(s: set<nat>)
    requires s != {}
    ensures exists r :: IsMin(s, r)
  {
    var x :| x in s;
    if s == {x} {
      assert IsMin(s, x);
    } else {
      assert s - {x} != {} by { assert s != {x}; }
      MinExists(s - {x});
      var y :| IsMin(s - {x}, y);
      var m := if x < y then x else y;
      forall i | i in s ensures m <= i {
        if i != x { assert i in s - {x}; }
      }
      assert IsMin(s, m);
    }
  }

  /** What repeatedly fetching the least element of `s` returns. */
  function Drained(s: set<nat>): seq<nat>
    decreases |s|
  {
    if s == {} then [] else [Min(s)] + Drained(s - {Min(s)})
  }

  /** Draining returns every element, once, in strictly ascending order. */
  lemma {:induction false} DrainedAscends(s: set<nat>)
    ensures |Drained(s)| == |s|
    ensures forall x :: x in Drained(s) <==> x in s
    ensures forall i, j :: 0 <= i < j < |Drained(s)| ==> Drained(s)[i] < Drained(s)[j]
    decreases |s|
  {
    if s != {} {
      var m, rest := Min(s), Drained(s - {Min(s)});
      DrainedAscends(s - {m});
      assert Drained(s) == [m] + rest;
      forall i, j | 0 <= i < j < |Drained(s)| ensures Drained(s)[i] < Drained(s)[j] {
        assert rest[j - 1] in s - {m};
      }
    }
  }
}
