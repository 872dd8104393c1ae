/** Real-valued tensors as nested sequences, with the sums the library's
    numpy expressions (`np.sum`, `@`, `np.mean`) reduce to.

    A matrix is a sequence of rows, a 3-tensor a sequence of matrices; the
    first index is numpy's axis 0.
 */
module Tensors {

  type Mat = seq<seq<real>>
  type Tensor3 = seq<seq<seq<real>>>

  /** `A` has numpy shape (rows, cols). */
  predicate IsMat(A: Mat, rows: nat, cols: nat)
  {
    |A| == rows && forall r :: 0 <= r < rows ==> |A[r]| == cols
  }

  /** `A` has numpy shape (d0, d1, d2). */
  predicate IsTensor3(A: Tensor3, d0: nat, d1: nat, d2: nat)
  {
    |A| == d0 && forall a :: 0 <= a < d0 ==> IsMat(A[a], d1, d2)
  }

  predicate AllNonNegative(s: seq<real>)
  {
    forall k :: 0 <= k < |s| ==> 0.0 <= s[k]
  }

  /** Sum of all entries. */
  function Sum(s: seq<real>): real
  {
    if |s| == 0 then 0.0 else s[0] + Sum(s[1..])
  }

  lemma {:induction false} SumNonNegative(s: seq<real>)
    requires AllNonNegative(s)
    ensures 0.0 <= Sum(s)
  {
    if |s| > 0 {
      SumNonNegative(s[1..]);
    }
  }

  /** A sum of non-negative terms bounds each of its terms. */
  lemma {:induction false} SumBoundsTerm(s: seq<real>, k: nat)
    requires AllNonNegative(s)
    requires k < |s|
    ensures s[k] <= Sum(s)
  {
    if k == 0 {
      SumNonNegative(s[1..]);
    } else {
      SumBoundsTerm(s[1..], k - 1);
    }
  }

  /** A sum of non-negative terms with one positive term is positive. */
  lemma SumPositive(s: seq<real>, k: nat)
    requires AllNonNegative(s)
    requires k < |s| && 0.0 < s[k]
    ensures 0.0 < Sum(s)
  {
    SumBoundsTerm(s, k);
  }

  /** A positive sum has a positive term. */
  lemma {:induction false} PositiveTerm(s: seq<real>) returns (k: nat)
    requires 0.0 < Sum(s)
    ensures k < |s| && 0.0 < s[k]
  {
    if 0.0 < s[0] {
      k := 0;
    } else {
      var k' := PositiveTerm(s[1..]);
      k := k' + 1;
    }
  }

  /** A constant factor moves out of a sum. */
  lemma {:induction false} SumScale(s: seq<real>, t: seq<real>, c: real)
    requires |s| == |t|
    requires forall k :: 0 <= k < |s| ==> t[k] == c * s[k]
    ensures Sum(t) == c * Sum(s)
  {
    if |s| > 0 {
      SumScale(s[1..], t[1..], c);
    }
  }

  /** Dividing every term by q divides the sum by q. */
  lemma {:induction false} SumDivide(s: seq<real>, t: seq<real>, q: real)
    requires |s| == |t| && q != 0.0
    requires forall k :: 0 <= k < |s| ==> t[k] == s[k] / q
    ensures Sum(t) == Sum(s) / q
  {
    if |s| > 0 {
      SumDivide(s[1..], t[1..], q);
      AddQuotients(s[0], Sum(s[1..]), q);
    }
  }

  lemma AddQuotients(a: real, b: real, q: real)
    requires q != 0.0
    ensures a / q + b / q == (a + b) / q
  {
  }

  /** The sum of a pointwise sum is the sum of the sums. */
  lemma {:induction false} SumAdd(s: seq<real>, t: seq<real>, u: seq<real>)
    requires |s| == |t| == |u|
    requires forall k :: 0 <= k < |s| ==> u[k] == s[k] + t[k]
    ensures Sum(u) == Sum(s) + Sum(t)
  {
    if |s| > 0 {
      SumAdd(s[1..], t[1..], u[1..]);
    }
  }

  /** Appending a term adds it to the sum. */
  lemma {:induction false} SumSnoc(s: seq<real>, x: real)
    ensures Sum(s + [x]) == Sum(s) + x
  {
    if |s| == 0 {
      assert s + [x] == [x];
    } else {
      assert (s + [x])[1..] == s[1..] + [x];
      SumSnoc(s[1..], x);
    }
  }

  /** A sum whose terms are zero except at `k` equals its `k`-th term. */
  lemma {:induction false} SumSingleTerm(s: seq<real>, k: nat)
    requires k < |s|
    requires forall k' :: 0 <= k' < |s| && k' != k ==> s[k'] == 0.0
    ensures Sum(s) == s[k]
  {
    if k == 0 {
      SumZero(s[1..]);
    } else {
      assert s[0] == 0.0;
      SumSingleTerm(s[1..], k - 1);
    }
  }

  lemma {:induction false} SumZero(s: seq<real>)
    requires forall k :: 0 <= k < |s| ==> s[k] == 0.0
    ensures Sum(s) == 0.0
  {
    if |s| > 0 {
      SumZero(s[1..]);
    }
  }

  /** Entrywise product of two vectors of the same length. */
  function Products(a: seq<real>, b: seq<real>): (p: seq<real>)
    requires |a| == |b|
    ensures |p| == |a|
    ensures forall i :: 0 <= i < |a| ==> p[i] == a[i] * b[i]
  {
    seq(|a|, i requires 0 <= i < |a| => a[i] * b[i])
  }

  /** Inner product of two vectors of the same length. */
  function Dot(a: seq<real>, b: seq<real>): real
    requires |a| == |b|
  {
    Sum(Products(a, b))
  }

  /** Entrywise sum of two matrices of the same shape. */
  function AddMat(A: Mat, B: Mat): (C: Mat)
    requires |A| == |B|
    requires forall r :: 0 <= r < |A| ==> |A[r]| == |B[r]|
    ensures |C| == |A|
    ensures forall r :: 0 <= r < |A| ==> |C[r]| == |A[r]|
    ensures forall r, c :: 0 <= r < |A| && 0 <= c < |A[r]| ==> C[r][c] == A[r][c] + B[r][c]
  {
    seq(|A|, r requires 0 <= r < |A| => seq(|A[r]|, c requires 0 <= c < |A[r]| => A[r][c] + B[r][c]))
  }

  /** Sum over all entries of the entrywise product, `np.sum(A * B)`. */
  function Inner(A: Mat, B: Mat): real
    requires |A| == |B|
    requires forall r :: 0 <= r < |A| ==> |A[r]| == |B[r]|
  {
    Sum(seq(|A|, r requires 0 <= r < |A| => Dot(A[r], B[r])))
  }

  // Real-arithmetic steps the solver does not find unaided in a large context.

  lemma SelfQuotient(y: real)
    requires y != 0.0
    ensures y / y == 1.0
  {
  }

  lemma DivCancel(x: real, y: real)
    requires y != 0.0
    ensures (x / y) * y == x
  {
  }

  lemma SquareScale(c: real, x: real)
    ensures (c * x) * (c * x) == (c * c) * (x * x)
  {
  }

  lemma ScaleQuotient(c: real, x: real, y: real)
    requires y != 0.0
    ensures (c * x) / y == c * (x / y)
  {
  }

  lemma QuotientProduct(a: real, b: real, q: real, r: real)
    requires q != 0.0 && r == a / q
    ensures r * b == (a * b) / q
  {
  }

  lemma TripleQuotient(z: real, t: real, p: real, v: real, q: real)
    requires q != 0.0 && p == z * t / q
    ensures p * v == z * (t * v) / q
  {
  }

  lemma SquareOfQuotient(a: real, r: real, q: real)
    requires q != 0.0 && r == a / q
    ensures a * a == (q * q) * (r * r)
  {
    DivCancel(a, q);
    SquareScale(q, r);
  }

  /** A factor moved from one side of a product to the other. */
  lemma MovedScale(z': real, t': real, zs: real, z: real, t: real, c: real, q: real)
    requires q != 0.0 && z' * c == zs && t' == t * c && zs == z / q
    ensures z' * t' == z * t / q
  {
    calc {
      z' * t';
      (z' * c) * t;
      zs * t;
      z * t / q;
    }
  }

  lemma ScaledQuotients(q: real, q': real, x: real, x': real, c: real, y: real)
    requires y != 0.0 && q == x / y && q' == x' / y && x == c * x'
    ensures q == c * q'
  {
  }

  lemma PositiveSquare(x: real, y: real)
    requires 0.0 < x && y == x * x
    ensures 0.0 < y
  {
    calc {
      y;
      x * x;
    >
      0.0;
    }
  }

  lemma UnitFactor(x: real, y: real, c: real)
    requires y != 0.0 && c == y && y == c * x
    ensures x == 1.0
  {
    calc {
      x;
      (y * x) / y;
      y / y;
      1.0;
    }
  }

  lemma SquareNonNegative(x: real)
    ensures 0.0 <= x * x
  {
    if x < 0.0 {
      PositiveSquare(-x, x * x);
    } else if x > 0.0 {
      PositiveSquare(x, x * x);
    }
  }

  lemma SquaresNonNegative(v: seq<real>)
    ensures AllNonNegative(Products(v, v)) && 0.0 <= Dot(v, v)
  {
    forall k | 0 <= k < |v|
      ensures 0.0 <= Products(v, v)[k]
    {
      SquareNonNegative(v[k]);
    }
    SumNonNegative(Products(v, v));
  }

  /** A vector divided by its (non-zero) norm has unit norm. */
  lemma UnitAfterDivision(m: seq<real>, c: seq<real>, r: real)
    requires |m| == |c| && 0.0 < r && r * r == Dot(m, m)
    requires forall n :: 0 <= n < |m| ==> m[n] == r * c[n]
    ensures Dot(c, c) == 1.0
  {
    forall n | 0 <= n < |m|
      ensures Products(m, m)[n] == (r * r) * Products(c, c)[n]
    {
      SquareScale(r, c[n]);
    }
    SumScale(Products(c, c), Products(m, m), r * r);
    PositiveSquare(r, Dot(m, m));
    UnitFactor(Dot(c, c), Dot(m, m), r * r);
  }
}
