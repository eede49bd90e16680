/** The matrix squaring of `matrix.rs`, with the wrap-around of 64-bit arithmetic in a release build. */
module Matrices {

  const WRAP: nat := 0x1_0000_0000_0000_0000

  type Matrix = seq<seq<int>>

  predicate Square(a: Matrix, n: nat) {
    |a| == n && forall i :: 0 <= i < n ==> |a[i]| == n
  }

  // ------------------------------------------------------------------ the exact product

  /** The sum of the first `k` products of row `i` and column `j`. */
  function Dot(a: Matrix, b: Matrix, n: nat, i: nat, j: nat, k: nat): int
    requires Square(a, n) && Square(b, n) && i < n && j < n && k <= n
  {
    if k == 0 then 0 else Dot(a, b, n, i, j, k - 1) + a[i][k - 1] * b[k - 1][j]
  }

  function Mul(a: Matrix, b: Matrix, n: nat): (c: Matrix)
    requires Square(a, n) && Square(b, n)
    ensures Square(c, n) && forall i, j :: 0 <= i < n && 0 <= j < n ==> c[i][j] == Dot(a, b, n, i, j, n)
  {
    seq(n, i requires 0 <= i < n => seq(n, j requires 0 <= j < n => Dot(a, b, n, i, j, n)))
  }

  /** Rows of `ab` restricted to `l` terms, times column `j` of `c`, summed to `k`. */
  ghost function LeftSum(a: Matrix, b: Matrix, c: Matrix, n: nat, i: nat, j: nat, k: nat, l: nat): int
    requires Square(a, n) && Square(b, n) && Square(c, n) && i < n && j < n && k <= n && l <= n
  {
    if k == 0 then 0 else LeftSum(a, b, c, n, i, j, k - 1, l) + Dot(a, b, n, i, k - 1, l) * c[k - 1][j]
  }

  /** Row `i` of `a` times columns of `bc` restricted to `k` terms, summed to `l`. */
  ghost function RightSum(a: Matrix, b: Matrix, c: Matrix, n: nat, i: nat, j: nat, k: nat, l: nat): int
    requires Square(a, n) && Square(b, n) && Square(c, n) && i < n && j < n && k <= n && l <= n
  {
    if l == 0 then 0 else RightSum(a, b, c, n, i, j, k, l - 1) + a[i][l - 1] * Dot(b, c, n, l - 1, j, k)
  }

  lemma Distribute(x: int, y: int, z: int, w: int)
    ensures (x + y * z) * w == x * w + y * (z * w)
  {}

  lemma Factor(x: int, y: int, z: int)
    ensures x * (y + z) == x * y + x * z
  {}

  /** One more term of the inner sum on the left is one more term of the outer sum on the right. */
  lemma {:induction false} LeftStep(a: Matrix, b: Matrix, c: Matrix, n: nat, i: nat, j: nat, k: nat, l: nat)
    requires Square(a, n) && Square(b, n) && Square(c, n) && i < n && j < n && k <= n && 0 < l <= n
    ensures LeftSum(a, b, c, n, i, j, k, l) == LeftSum(a, b, c, n, i, j, k, l - 1) + a[i][l - 1] * Dot(b, c, n, l - 1, j, k)
  {
    if k > 0 {
      LeftStep(a, b, c, n, i, j, k - 1, l);
      Distribute(Dot(a, b, n, i, k - 1, l - 1), a[i][l - 1], b[l - 1][k - 1], c[k - 1][j]);
      Factor(a[i][l - 1], Dot(b, c, n, l - 1, j, k - 1), b[l - 1][k - 1] * c[k - 1][j]);
    }
  }

  lemma {:induction false} LeftEmpty(a: Matrix, b: Matrix, c: Matrix, n: nat, i: nat, j: nat, k: nat)
    requires Square(a, n) && Square(b, n) && Square(c, n) && i < n && j < n && k <= n
    ensures LeftSum(a, b, c, n, i, j, k, 0) == 0
  {
    if k > 0 { LeftEmpty(a, b, c, n, i, j, k - 1); }
  }

  lemma {:induction false} SumsAgree(a: Matrix, b: Matrix, c: Matrix, n: nat, i: nat, j: nat, k: nat, l: nat)
    requires Square(a, n) && Square(b, n) && Square(c, n) && i < n && j < n && k <= n && l <= n
    ensures LeftSum(a, b, c, n, i, j, k, l) == RightSum(a, b, c, n, i, j, k, l)
    decreases l
  {
    if l == 0 {
      LeftEmpty(a, b, c, n, i, j, k);
    } else {
      LeftStep(a, b, c, n, i, j, k, l);
      SumsAgree(a, b, c, n, i, j, k, l - 1);
    }
  }

  lemma {:induction false} LeftIsDot(a: Matrix, b: Matrix, c: Matrix, n: nat, i: nat, j: nat, k: nat)
    requires Square(a, n) && Square(b, n) && Square(c, n) && i < n && j < n && k <= n
    ensures Dot(Mul(a, b, n), c, n, i, j, k) == LeftSum(a, b, c, n, i, j, k, n)
  {
    if k > 0 { LeftIsDot(a, b, c, n, i, j, k - 1); }
  }

  lemma {:induction false} RightIsDot(a: Matrix, b: Matrix, c: Matrix, n: nat, i: nat, j: nat, l: nat)
    requires Square(a, n) && Square(b, n) && Square(c, n) && i < n && j < n && l <= n
    ensures Dot(a, Mul(b, c, n), n, i, j, l) == RightSum(a, b, c, n, i, j, n, l)
  {
    if l > 0 { RightIsDot(a, b, c, n, i, j, l - 1); }
  }

  lemma SameMatrix(a: Matrix, b: Matrix, n: nat)
    requires Square(a, n) && Square(b, n) && forall i, j :: 0 <= i < n && 0 <= j < n ==> a[i][j] == b[i][j]
    ensures a == b
  {
    forall i | 0 <= i < n ensures a[i] == b[i] {}
  }

  /** The matrix product is associative. */
  lemma MulAssociates(a: Matrix, b: Matrix, c: Matrix, n: nat)
    requires Square(a, n) && Square(b, n) && Square(c, n)
    ensures Mul(Mul(a, b, n), c, n) == Mul(a, Mul(b, c, n), n)
  {
    var left, right := Mul(Mul(a, b, n), c, n), Mul(a, Mul(b, c, n), n);
    forall i, j | 0 <= i < n && 0 <= j < n ensures left[i][j] == right[i][j] {
      LeftIsDot(a, b, c, n, i, j, n);
      RightIsDot(a, b, c, n, i, j, n);
      SumsAgree(a, b, c, n, i, j, n, n);
    }
    SameMatrix(left, right, n);
  }

  /** The product of `e` copies of `a`, one after the other. */
  function Power(a: Matrix, n: nat, e: nat): (r: Matrix)
    requires Square(a, n) && e >= 1
    ensures Square(r, n)
  {
    if e == 1 then a else Mul(Power(a, n, e - 1), a, n)
  }

  lemma {:induction false} PowerAdds(a: Matrix, n: nat, d: nat, e: nat)
    requires Square(a, n) && d >= 1 && e >= 1
    ensures Mul(Power(a, n, d), Power(a, n, e), n) == Power(a, n, d + e)
    decreases e
  {
    if e > 1 {
      MulAssociates(Power(a, n, d), Power(a, n, e - 1), a, n);
      PowerAdds(a, n, d, e - 1);
    }
  }

  // ------------------------------------------------------------------ wrap-around

  function Wrapped(a: Matrix): (r: Matrix)
    ensures |r| == |a| && forall i :: 0 <= i < |a| ==> |r[i]| == |a[i]|
    ensures forall i, j :: 0 <= i < |a| && 0 <= j < |a[i]| ==> r[i][j] == a[i][j] % WRAP
  {
    seq(|a|, i requires 0 <= i < |a| => seq(|a[i]|, j requires 0 <= j < |a[i]| => a[i][j] % WRAP))
  }

  lemma Expand(m: int, p: int, r: int, q: int, s: int)
    ensures (m * p + r) * (m * q + s) == m * (p * (m * q + s) + r * q) + r * s
  {
    var y := m * q + s;
    Distribute(r, m, p, y);
    Factor(r, m * q, s);
    Factor(m, p * y, r * q);
  }

  lemma WrapMultiple(t: int, z: int)
    ensures (WRAP * t + z) % WRAP == z % WRAP
  {}

  lemma WrapProduct(x: int, y: int)
    ensures ((x % WRAP) * (y % WRAP)) % WRAP == (x * y) % WRAP
  {
    var p, q, r, s := x / WRAP, y / WRAP, x % WRAP, y % WRAP;
    assert x == WRAP * p + r && y == WRAP * q + s;
    Expand(WRAP, p, r, q, s);
    WrapMultiple(p * y + r * q, r * s);
  }

  lemma WrapSum(u: int, v: int)
    ensures ((u % WRAP) + (v % WRAP)) % WRAP == (u + v) % WRAP
  {}

  /** Wrapping the factors does not change the wrapped product. */
  lemma {:induction false} WrapDot(a: Matrix, b: Matrix, n: nat, i: nat, j: nat, k: nat)
    requires Square(a, n) && Square(b, n) && i < n && j < n && k <= n
    ensures Dot(Wrapped(a), Wrapped(b), n, i, j, k) % WRAP == Dot(a, b, n, i, j, k) % WRAP
  {
    if k > 0 {
      var a', b' := Wrapped(a), Wrapped(b);
      WrapDot(a, b, n, i, j, k - 1);
      WrapProduct(a[i][k - 1], b[k - 1][j]);
      WrapSum(Dot(a', b', n, i, j, k - 1), a'[i][k - 1] * b'[k - 1][j]);
      WrapSum(Dot(a, b, n, i, j, k - 1), a[i][k - 1] * b[k - 1][j]);
    }
  }

  lemma WrapMul(a: Matrix, b: Matrix, n: nat)
    requires Square(a, n) && Square(b, n)
    ensures Wrapped(Mul(Wrapped(a), Wrapped(b), n)) == Wrapped(Mul(a, b, n))
  {
    var left, right := Wrapped(Mul(Wrapped(a), Wrapped(b), n)), Wrapped(Mul(a, b, n));
    forall i, j | 0 <= i < n && 0 <= j < n ensures left[i][j] == right[i][j] {
      WrapDot(a, b, n, i, j, n);
    }
    SameMatrix(left, right, n);
  }

  // ------------------------------------------------------------------ the code

  ghost function View(m: array2<int>): (r: Matrix)
    requires m.Length0 == m.Length1
    reads m
    ensures Square(r, m.Length0) && forall i, j :: 0 <= i < m.Length0 && 0 <= j < m.Length0 ==> r[i][j] == m[i, j]
  {
    seq(m.Length0, i requires 0 <= i < m.Length0 reads m => seq(m.Length0, j requires 0 <= j < m.Length0 reads m => m[i, j]))
  }

  /** The innermost loop of `matrix_multiply`: accumulates one entry in place. */
  method Accumulate(m1: array2<int>, m2: array2<int>, result: array2<int>, i: nat, j: nat)
    requires m1.Length0 == m1.Length1 == m2.Length0 == m2.Length1 == result.Length0 == result.Length1
    requires i < m1.Length0 && j < m1.Length0 && result != m1 && result != m2 && result[i, j] == 0
    modifies result
    ensures result[i, j] == Dot(View(m1), View(m2), m1.Length0, i, j, m1.Length0) % WRAP
    ensures forall x, y :: 0 <= x < m1.Length0 && 0 <= y < m1.Length0 && (x != i || y != j) ==> result[x, y] == old(result[x, y])
  {
    ghost var a, b, n := View(m1), View(m2), m1.Length0;
    for k := 0 to m1.Length0
      invariant View(m1) == a && View(m2) == b
      invariant forall x, y :: 0 <= x < n && 0 <= y < n && (x != i || y != j) ==> result[x, y] == old(result[x, y])
      invariant result[i, j] == Dot(a, b, n, i, j, k) % WRAP
    {
      WrapSum(Dot(a, b, n, i, j, k), m1[i, k] * m2[k, j]);
      result[i, j] := (result[i, j] + (m1[i, k] * m2[k, j]) % WRAP) % WRAP;
    }
  }

  /** `matrix_multiply`: the triple loop computes the exact product, wrapped. */
  method MatrixMultiply(m1: array2<int>, m2: array2<int>) returns (result: array2<int>)
    requires m1.Length0 == m1.Length1 == m2.Length0 == m2.Length1
    ensures fresh(result) && result.Length0 == result.Length1 == m1.Length0
    ensures View(result) == Wrapped(Mul(View(m1), View(m2), m1.Length0))
  {
    var n := m1.Length0;
    ghost var c := Wrapped(Mul(View(m1), View(m2), n));
    result := new int[n, n]((_, _) => 0);
    for i := 0 to n
      invariant forall x, y :: 0 <= x < n && 0 <= y < n ==> result[x, y] == if x < i then c[x][y] else 0
    {
      for j := 0 to n
        invariant forall x, y :: 0 <= x < n && 0 <= y < n ==>
          result[x, y] == if x < i || (x == i && y < j) then c[x][y] else 0
      {
        Accumulate(m1, m2, result, i, j);
      }
    }
    SameMatrix(View(result), c, n);
  }

  /** The matrix of `init_matrix`. */
  function InitMatrix(n: nat): (r: Matrix)
    ensures Square(r, n) && forall i, j :: 0 <= i < n && 0 <= j < n ==> r[i][j] == i * n + j + 1
  {
    seq(n, i => seq(n, j => i * n + j + 1))
  }

  /** `init_matrix`. */
  method FillMatrix(n: nat) returns (a: array2<int>)
    ensures fresh(a) && a.Length0 == a.Length1 == n
    ensures View(a) == Wrapped(InitMatrix(n))
  {
    a := new int[n, n]((_, _) => 0);
    for i := 0 to n
      invariant forall x, y :: 0 <= x < i && 0 <= y < n ==> a[x, y] == InitMatrix(n)[x][y] % WRAP
    {
      for j := 0 to n
        invariant forall x, y :: 0 <= x < i && 0 <= y < n ==> a[x, y] == InitMatrix(n)[x][y] % WRAP
        invariant forall y :: 0 <= y < j ==> a[i, y] == InitMatrix(n)[i][y] % WRAP
      {
        a[i, j] := (i * n + j + 1) % WRAP;
      }
    }
    SameMatrix(View(a), Wrapped(InitMatrix(n)), n);
  }

  function Exp2(k: nat): (r: nat)
    ensures r >= 1
  {
    if k == 0 then 1 else 2 * Exp2(k - 1)
  }

  /** Squaring the wrapped `e`-fold product gives the wrapped `2e`-fold product. */
  lemma SquaringDoubles(a: Matrix, n: nat, e: nat)
    requires Square(a, n) && e >= 1
    ensures var w := Wrapped(Power(a, n, e));
      Square(w, n) && Wrapped(Mul(w, w, n)) == Wrapped(Power(a, n, 2 * e))
  {
    WrapMul(Power(a, n, e), Power(a, n, e), n);
    PowerAdds(a, n, e, e);
  }

  /** `matrix_test`, for any size and any number of squarings: the result is the 2^rounds-fold product
      of the start matrix modulo 2^64. */
  method MatrixTest(n: nat, rounds: nat) returns (a: array2<int>)
    ensures a.Length0 == a.Length1 == n
    ensures View(a) == Wrapped(Power(InitMatrix(n), n, Exp2(rounds)))
  {
    ghost var start := InitMatrix(n);
    a := FillMatrix(n);
    for r := 0 to rounds
      invariant a.Length0 == a.Length1 == n
      invariant View(a) == Wrapped(Power(start, n, Exp2(r)))
    {
      a := MatrixMultiply(a, a);
      SquaringDoubles(start, n, Exp2(r));
    }
  }
}
