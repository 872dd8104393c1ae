/** `correlation_based_permutation_solver`: align the source order of every
    frequency bin with the bins already aligned, greedily, in order of
    increasing self-correlation.

    Shapes: separated spectrogram Y (N, I, J), demixing filter W (I, N, N),
    normalised pattern P (I, N, J). Magnitudes |Y| are modelled on reals.
 */
module PermutationSolver {
  import opened Errors
  import opened Tensors
  import opened Permutations
  import Kernels

  function Abs(x: real): (a: real)
    ensures 0.0 <= a && (a == x || a == -x)
  {
    if x < 0.0 then -x else x
  }

  /** The magnitudes |Y[n, i, j]| of all sources at one time-frequency point. */
  function Magnitudes(Y: Tensor3, N: nat, I: nat, J: nat, i: nat, j: nat): (m: seq<real>)
    requires IsTensor3(Y, N, I, J) && i < I && j < J
    ensures |m| == N && forall n :: 0 <= n < N ==> m[n] == Abs(Y[n][i][j])
  {
    seq(N, n requires 0 <= n < N => Abs(Y[n][i][j]))
  }

  /** The floored norm over sources at (i, j), `flooring_fn(norm)`. */
  function FlooredNorm(Y: Tensor3, floor: real -> real, sqrt: real -> real, N: nat, I: nat, J: nat, i: nat, j: nat): real
    requires IsTensor3(Y, N, I, J) && i < I && j < J
  {
    var m := Magnitudes(Y, N, I, J, i, j);
    floor(sqrt(Dot(m, m)))
  }

  /** No time-frequency point is divided by zero. */
  predicate NormsNonZero(Y: Tensor3, floor: real -> real, sqrt: real -> real, N: nat, I: nat, J: nat)
    requires IsTensor3(Y, N, I, J)
  {
    forall i, j :: 0 <= i < I && 0 <= j < J ==> FlooredNorm(Y, floor, sqrt, N, I, J, i, j) != 0.0
  }

  /** `P = |Y|.transpose(1, 0, 2) / norm`: at every bin and frame, the
      magnitudes of the sources divided by their floored norm. */
  function Pattern(Y: Tensor3, floor: real -> real, sqrt: real -> real, N: nat, I: nat, J: nat): (P: Tensor3)
    requires IsTensor3(Y, N, I, J) && NormsNonZero(Y, floor, sqrt, N, I, J)
    ensures IsTensor3(P, I, N, J)
    ensures forall i, n, j :: 0 <= i < I && 0 <= n < N && 0 <= j < J ==>
      P[i][n][j] * FlooredNorm(Y, floor, sqrt, N, I, J, i, j) == Abs(Y[n][i][j])
  {
    seq(I, i requires 0 <= i < I =>
      seq(N, n requires 0 <= n < N =>
        seq(J, j requires 0 <= j < J => Abs(Y[n][i][j]) / FlooredNorm(Y, floor, sqrt, N, I, J, i, j))))
  }

  /** Column c of an R x C matrix. */
  function Col(M: Mat, R: nat, C: nat, c: nat): (v: seq<real>)
    requires IsMat(M, R, C) && c < C
    ensures |v| == R && forall r :: 0 <= r < R ==> v[r] == M[r][c]
  {
    seq(R, r requires 0 <= r < R => M[r][c])
  }

  function RowSums(M: Mat, R: nat, C: nat): (s: seq<real>)
    requires IsMat(M, R, C)
    ensures |s| == R && forall r :: 0 <= r < R ==> s[r] == Sum(M[r])
  {
    seq(R, r requires 0 <= r < R => Sum(M[r]))
  }

  function ColumnSums(M: Mat, R: nat, C: nat): (s: seq<real>)
    requires IsMat(M, R, C)
    ensures |s| == C && forall c :: 0 <= c < C ==> s[c] == Sum(Col(M, R, C, c))
  {
    seq(C, c requires 0 <= c < C => Sum(Col(M, R, C, c)))
  }

  /** With identity flooring and an exact square root, the pattern has unit
      norm over sources at every time-frequency point. */
  lemma PatternUnitNorm(Y: Tensor3, floor: real -> real, sqrt: real -> real, N: nat, I: nat, J: nat, i: nat, j: nat)
    requires IsTensor3(Y, N, I, J) && NormsNonZero(Y, floor, sqrt, N, I, J)
    requires Kernels.IsIdentity(floor) && Kernels.IsSqrt(sqrt)
    requires i < I && j < J
    ensures var c := Col(Pattern(Y, floor, sqrt, N, I, J)[i], N, J, j);
      Dot(c, c) == 1.0
  {
    var P := Pattern(Y, floor, sqrt, N, I, J);
    var c := Col(P[i], N, J, j);
    var m := Magnitudes(Y, N, I, J, i, j);
    var r := FlooredNorm(Y, floor, sqrt, N, I, J, i, j);
    SquaresNonNegative(m);
    assert r == sqrt(Dot(m, m));
    assert 0.0 < r && r * r == Dot(m, m);
    forall n | 0 <= n < N
      ensures m[n] == r * c[n]
    {
      assert P[i][n][j] * r == Abs(Y[n][i][j]);
    }
    UnitAfterDivision(m, c, r);
  }

  /** Summing a matrix by rows or by columns gives the same total. */
  lemma {:induction false} SumSwap(F: Mat, R: nat, C: nat)
    requires IsMat(F, R, C)
    ensures Sum(RowSums(F, R, C)) == Sum(ColumnSums(F, R, C))
    decreases R
  {
    var cols := ColumnSums(F, R, C);
    if R == 0 {
      SumZero(cols);
    } else {
      var F' := F[1..];
      SumSwap(F', R - 1, C);
      assert RowSums(F, R, C)[1..] == RowSums(F', R - 1, C);
      var cols' := ColumnSums(F', R - 1, C);
      forall c | 0 <= c < C
        ensures cols[c] == F[0][c] + cols'[c]
      {
        assert Col(F, R, C, c)[1..] == Col(F', R - 1, C, c);
      }
      SumAdd(F[0], cols', cols);
    }
  }

  /** The Gram matrix of the rows of an N x J pattern. */
  function Gram(M: Mat, N: nat, J: nat): (G: Mat)
    requires IsMat(M, N, J)
    ensures IsMat(G, N, N)
    ensures forall a, b :: 0 <= a < N && 0 <= b < N ==> G[a][b] == Dot(M[a], M[b])
  {
    seq(N, a requires 0 <= a < N => seq(N, b requires 0 <= b < N => Dot(M[a], M[b])))
  }

  /** `np.sum(P[i] @ P[i].T)`: the sum over all source pairs of the inner
      products of their patterns. */
  function Correlation(P: Tensor3, I: nat, N: nat, J: nat, i: nat): real
    requires IsTensor3(P, I, N, J) && i < I
  {
    Sum(RowSums(Gram(P[i], N, J), N, N))
  }

  function Correlations(P: Tensor3, I: nat, N: nat, J: nat): (c: seq<real>)
    requires IsTensor3(P, I, N, J)
    ensures |c| == I && forall i :: 0 <= i < I ==> c[i] == Correlation(P, I, N, J, i)
  {
    seq(I, i requires 0 <= i < I => Correlation(P, I, N, J, i))
  }

  lemma DotSymmetric(u: seq<real>, v: seq<real>)
    requires |u| == |v|
    ensures Dot(u, v) == Dot(v, u)
  {
    assert Products(u, v) == Products(v, u);
  }

  /** Every row of M multiplied entrywise by the vector v. */
  function ScaledRows(M: Mat, N: nat, J: nat, v: seq<real>): (S: Mat)
    requires IsMat(M, N, J) && |v| == J
    ensures IsMat(S, N, J)
    ensures forall b :: 0 <= b < N ==> S[b] == Products(v, M[b])
  {
    seq(N, b requires 0 <= b < N => Products(v, M[b]))
  }

  /** Scaling every row by v scales the column sums by v. */
  lemma ColumnSumsOfScaledRows(M: Mat, N: nat, J: nat, v: seq<real>)
    requires IsMat(M, N, J) && |v| == J
    ensures ColumnSums(ScaledRows(M, N, J, v), N, J) == Products(v, ColumnSums(M, N, J))
  {
    var S := ScaledRows(M, N, J, v);
    forall j | 0 <= j < J
      ensures ColumnSums(S, N, J)[j] == Products(v, ColumnSums(M, N, J))[j]
    {
      SumScale(Col(M, N, J, j), Col(S, N, J, j), v[j]);
    }
  }

  /** A row of the Gram matrix sums to the inner product with the summed pattern. */
  lemma GramRowSum(M: Mat, N: nat, J: nat, a: nat)
    requires IsMat(M, N, J) && a < N
    ensures Sum(Gram(M, N, J)[a]) == Dot(M[a], ColumnSums(M, N, J))
  {
    var G := ScaledRows(M, N, J, M[a]);
    assert RowSums(G, N, J) == Gram(M, N, J)[a];
    SumSwap(G, N, J);
    ColumnSumsOfScaledRows(M, N, J, M[a]);
  }

  /** The correlation of a bin is the energy of its pattern summed over
      sources, so it is never negative. */
  lemma CorrelationIsSummedEnergy(P: Tensor3, I: nat, N: nat, J: nat, i: nat)
    requires IsTensor3(P, I, N, J) && i < I
    ensures var s := ColumnSums(P[i], N, J);
      Correlation(P, I, N, J, i) == Dot(s, s) && 0.0 <= Correlation(P, I, N, J, i)
  {
    var M := P[i];
    var cs := ColumnSums(M, N, J);
    var H := ScaledRows(M, N, J, cs);
    forall a | 0 <= a < N
      ensures RowSums(Gram(M, N, J), N, N)[a] == RowSums(H, N, J)[a]
    {
      GramRowSum(M, N, J, a);
      DotSymmetric(M[a], cs);
    }
    assert RowSums(Gram(M, N, J), N, N) == RowSums(H, N, J);
    SumSwap(H, N, J);
    ColumnSumsOfScaledRows(M, N, J, cs);
    SquaresNonNegative(cs);
  }

  /** No index occurs twice. */
  predicate Distinct(order: seq<nat>)
  {
    forall a, b :: 0 <= a < b < |order| ==> order[a] != order[b]
  }

  /** `np.argsort(keys)`: every index once, keys non-decreasing along the
      order. Ties may come in any order, so the order is an input. */
  predicate IsArgsort(order: seq<nat>, keys: seq<real>)
  {
    && |order| == |keys|
    && IsIndexSeq(order, |keys|)
    && Distinct(order)
    && (forall a, b :: 0 <= a < b < |order| ==> keys[order[a]] <= keys[order[b]])
  }

  /** Every candidate reorders N rows. */
  predicate Candidates(perms: seq<seq<nat>>, N: nat)
  {
    forall l :: 0 <= l < |perms| ==> |perms[l]| == N && IsIndexSeq(perms[l], N)
  }

  /** The permutations of `range(N)` are candidates, and there is at least one. */
  lemma PermutationsAreCandidates(N: nat)
    ensures Candidates(PermutationsOf(Range(N)), N)
    ensures 0 < |PermutationsOf(Range(N))|
  {
    var perms := PermutationsOf(Range(N));
    PermutationsSound(Range(N));
    forall l | 0 <= l < |perms|
      ensures |perms[l]| == N && IsIndexSeq(perms[l], N)
    {
      assert perms[l] in perms;
      PermutationIsIndexSeq(perms[l], N);
    }
    PermutationsCount(Range(N));
  }

  /** `np.sum(P_criteria * P[idx, perm, :])`. */
  function Score(crit: Mat, Pb: Mat, perm: seq<nat>, N: nat, J: nat): real
    requires IsMat(crit, N, J) && IsMat(Pb, N, J)
    requires |perm| == N && IsIndexSeq(perm, N)
  {
    Inner(crit, PermuteRows(Pb, perm))
  }

  /** `perms[k]` has the largest score, and every earlier candidate a smaller one. */
  predicate IsFirstMax(perms: seq<seq<nat>>, crit: Mat, Pb: Mat, N: nat, J: nat, k: nat)
    requires Candidates(perms, N) && IsMat(crit, N, J) && IsMat(Pb, N, J)
  {
    && k < |perms|
    && (forall l :: 0 <= l < |perms| ==> Score(crit, Pb, perms[l], N, J) <= Score(crit, Pb, perms[k], N, J))
    && (forall l :: 0 <= l < k ==> Score(crit, Pb, perms[l], N, J) < Score(crit, Pb, perms[k], N, J))
  }

  /** The inner loop: the first permutation with the largest score, as the
      `P_max is None or P_perm > P_max` test finds it. */
  method SelectPermutation(perms: seq<seq<nat>>, crit: Mat, Pb: Mat, N: nat, J: nat) returns (k: nat)
    requires 0 < |perms| && Candidates(perms, N)
    requires IsMat(crit, N, J) && IsMat(Pb, N, J)
    ensures IsFirstMax(perms, crit, Pb, N, J, k)
  {
    var best: Option<real> := None;
    k := 0;
    var l := 0;
    while l < |perms|
      invariant 0 <= l <= |perms| && k < |perms|
      invariant best.None? <==> l == 0
      invariant best.Some? ==> k < l && best.value == Score(crit, Pb, perms[k], N, J)
      invariant best.Some? ==> forall m :: 0 <= m < l ==> Score(crit, Pb, perms[m], N, J) <= best.value
      invariant forall m :: 0 <= m < k ==> Score(crit, Pb, perms[m], N, J) < Score(crit, Pb, perms[k], N, J)
    {
      var s := Score(crit, Pb, perms[l], N, J);
      if best.None? || s > best.value {
        best := Some(s);
        k := l;
      }
      l := l + 1;
    }
  }

  /** `P_criteria` after the choices `picks` (indices into `perms`) for the
      bins `order[1]`, ..., `order[|picks|]`: the pattern of the reference
      bin plus the permuted patterns of the bins aligned so far. */
  function Criterion(P: Tensor3, order: seq<nat>, perms: seq<seq<nat>>, picks: seq<nat>, I: nat, N: nat, J: nat): (C: Mat)
    requires IsTensor3(P, I, N, J) && Candidates(perms, N)
    requires |picks| < |order| && IsIndexSeq(order, I)
    requires IsIndexSeq(picks, |perms|)
    ensures IsMat(C, N, J)
    decreases |picks|
  {
    if |picks| == 0 then P[order[0]]
    else
      var t := |picks|;
      AddMat(Criterion(P, order, perms, picks[..t - 1], I, N, J), PermuteRows(P[order[t]], perms[picks[t - 1]]))
  }

  /** Entry (a, j) of the pattern of the s-th bin in `order`, with the rows
      of bins after the reference reordered by their choices. */
  function AlignedEntry(P: Tensor3, order: seq<nat>, perms: seq<seq<nat>>, picks: seq<nat>,
                        I: nat, N: nat, J: nat, s: nat, a: nat, j: nat): real
    requires IsTensor3(P, I, N, J) && Candidates(perms, N)
    requires |picks| < |order| && IsIndexSeq(order, I)
    requires IsIndexSeq(picks, |perms|)
    requires s <= |picks| && a < N && j < J
  {
    if s == 0 then P[order[0]][a][j] else P[order[s]][perms[picks[s - 1]][a]][j]
  }

  function AlignedEntries(P: Tensor3, order: seq<nat>, perms: seq<seq<nat>>, picks: seq<nat>,
                          I: nat, N: nat, J: nat, a: nat, j: nat): (e: seq<real>)
    requires IsTensor3(P, I, N, J) && Candidates(perms, N)
    requires |picks| < |order| && IsIndexSeq(order, I)
    requires IsIndexSeq(picks, |perms|)
    requires a < N && j < J
    ensures |e| == |picks| + 1
    ensures forall s :: 0 <= s <= |picks| ==> e[s] == AlignedEntry(P, order, perms, picks, I, N, J, s, a, j)
  {
    seq(|picks| + 1, s requires 0 <= s <= |picks| => AlignedEntry(P, order, perms, picks, I, N, J, s, a, j))
  }

  /** The criterion only ever accumulates: it is the reference pattern plus
      every pattern aligned so far, each reordered by its choice. */
  lemma {:induction false} CriterionIsSumOfAligned(P: Tensor3, order: seq<nat>, perms: seq<seq<nat>>, picks: seq<nat>,
                                                   I: nat, N: nat, J: nat, a: nat, j: nat)
    requires IsTensor3(P, I, N, J) && Candidates(perms, N)
    requires |picks| < |order| && IsIndexSeq(order, I)
    requires IsIndexSeq(picks, |perms|)
    requires a < N && j < J
    ensures Criterion(P, order, perms, picks, I, N, J)[a][j] == Sum(AlignedEntries(P, order, perms, picks, I, N, J, a, j))
    decreases |picks|
  {
    var e := AlignedEntries(P, order, perms, picks, I, N, J, a, j);
    if |picks| == 0 {
      assert e == [P[order[0]][a][j]];
    } else {
      var t := |picks|;
      var pre := picks[..t - 1];
      CriterionIsSumOfAligned(P, order, perms, pre, I, N, J, a, j);
      var e' := AlignedEntries(P, order, perms, pre, I, N, J, a, j);
      assert e == e' + [P[order[t]][perms[picks[t - 1]][a]][j]];
      SumSnoc(e', P[order[t]][perms[picks[t - 1]][a]][j]);
    }
  }

  /** Choice q was the first best match for bin `order[q + 1]` against the
      criterion accumulated from the choices before it. */
  predicate ChoicesGreedy(P: Tensor3, order: seq<nat>, perms: seq<seq<nat>>, picks: seq<nat>, I: nat, N: nat, J: nat)
    requires IsTensor3(P, I, N, J) && Candidates(perms, N)
    requires |picks| < |order| && IsIndexSeq(order, I)
    requires IsIndexSeq(picks, |perms|)
  {
    forall q :: 0 <= q < |picks| ==> GreedyAt(P, order, perms, picks[..q], picks[q], I, N, J)
  }

  /** After the choices `prefix`, choice k is the first best match for the
      next bin in `order`. */
  predicate GreedyAt(P: Tensor3, order: seq<nat>, perms: seq<seq<nat>>, prefix: seq<nat>, k: nat, I: nat, N: nat, J: nat)
    requires IsTensor3(P, I, N, J) && Candidates(perms, N)
    requires |prefix| + 1 < |order| && IsIndexSeq(order, I)
    requires IsIndexSeq(prefix, |perms|)
  {
    IsFirstMax(perms, Criterion(P, order, perms, prefix, I, N, J), P[order[|prefix| + 1]], N, J, k)
  }

  lemma ChoicesGreedyExtend(P: Tensor3, order: seq<nat>, perms: seq<seq<nat>>, picks: seq<nat>, k: nat, I: nat, N: nat, J: nat)
    requires IsTensor3(P, I, N, J) && Candidates(perms, N)
    requires |picks| + 1 < |order| && IsIndexSeq(order, I)
    requires IsIndexSeq(picks, |perms|) && k < |perms|
    requires ChoicesGreedy(P, order, perms, picks, I, N, J)
    requires IsFirstMax(perms, Criterion(P, order, perms, picks, I, N, J), P[order[|picks| + 1]], N, J, k)
    ensures ChoicesGreedy(P, order, perms, picks + [k], I, N, J)
  {
    var picks' := picks + [k];
    forall q | 0 <= q < |picks'|
      ensures IsIndexSeq(picks'[..q], |perms|) && GreedyAt(P, order, perms, picks'[..q], picks'[q], I, N, J)
    {
      assert IsIndexSeq(picks'[..q], |perms|);
      if q < |picks| {
        assert picks'[..q] == picks[..q] && picks'[q] == picks[q];
        assert GreedyAt(P, order, perms, picks[..q], picks[q], I, N, J);
      } else {
        assert picks'[..q] == picks && picks'[q] == k;
      }
    }
  }

  /** The filters of the bins `order[1..t]` are reordered by their choices,
      all others are as given. */
  predicate FiltersAligned(W: Tensor3, W': Tensor3, order: seq<nat>, perms: seq<seq<nat>>, picks: seq<nat>, I: nat, N: nat)
    requires IsTensor3(W, I, N, N) && Candidates(perms, N)
    requires |picks| < |order| == I && IsIndexSeq(order, I)
    requires IsIndexSeq(picks, |perms|)
  {
    && IsTensor3(W', I, N, N)
    && W'[order[0]] == W[order[0]]
    && (forall q :: 0 <= q < |picks| ==> W'[order[q + 1]] == PermuteRows(W[order[q + 1]], perms[picks[q]]))
    && (forall s :: |picks| < s < I ==> W'[order[s]] == W[order[s]])
  }

  lemma FiltersAlignedExtend(W: Tensor3, W': Tensor3, order: seq<nat>, perms: seq<seq<nat>>, picks: seq<nat>, k: nat, I: nat, N: nat)
    requires IsTensor3(W, I, N, N) && Candidates(perms, N)
    requires |picks| + 1 < |order| == I && IsIndexSeq(order, I) && Distinct(order)
    requires IsIndexSeq(picks, |perms|) && k < |perms|
    requires FiltersAligned(W, W', order, perms, picks, I, N)
    ensures var b := order[|picks| + 1];
      FiltersAligned(W, W'[b := PermuteRows(W'[b], perms[k])], order, perms, picks + [k], I, N)
  {
  }

  /** The outer loop over the bins after the reference bin `order[0]`: each
      bin's filter rows are reordered by the candidate that best matches the
      accumulated criterion, which then absorbs the reordered pattern. */
  method AlignBins(P: Tensor3, W: Tensor3, order: seq<nat>, perms: seq<seq<nat>>, I: nat, N: nat, J: nat)
    returns (W': Tensor3, picks: seq<nat>)
    requires IsTensor3(P, I, N, J) && IsTensor3(W, I, N, N)
    requires 0 < I && |order| == I && IsIndexSeq(order, I) && Distinct(order)
    requires 0 < |perms| && Candidates(perms, N)
    ensures |picks| == I - 1 && IsIndexSeq(picks, |perms|)
    ensures FiltersAligned(W, W', order, perms, picks, I, N)
    ensures ChoicesGreedy(P, order, perms, picks, I, N, J)
  {
    var crit := P[order[0]];
    W' := W;
    picks := [];
    var t := 1;
    while t < I
      invariant 1 <= t <= I
      invariant |picks| == t - 1 && IsIndexSeq(picks, |perms|)
      invariant crit == Criterion(P, order, perms, picks, I, N, J)
      invariant FiltersAligned(W, W', order, perms, picks, I, N)
      invariant ChoicesGreedy(P, order, perms, picks, I, N, J)
    {
      var b := order[t];
      var k := SelectPermutation(perms, crit, P[b], N, J);
      ChoicesGreedyExtend(P, order, perms, picks, k, I, N, J);
      FiltersAlignedExtend(W, W', order, perms, picks, k, I, N);
      assert (picks + [k])[..t - 1] == picks;
      crit := AddMat(crit, PermuteRows(P[b], perms[k]));
      W' := W'[b := PermuteRows(W'[b], perms[k])];
      picks := picks + [k];
      t := t + 1;
    }
  }

  /** Aligning reorders the rows of every bin's filter and loses none. */
  lemma AlignedKeepsRows(W: Tensor3, W': Tensor3, order: seq<nat>, picks: seq<nat>, I: nat, N: nat)
    requires IsTensor3(W, I, N, N) && Candidates(PermutationsOf(Range(N)), N)
    requires |picks| < |order| == I && IsIndexSeq(order, I)
    requires IsIndexSeq(picks, |PermutationsOf(Range(N))|)
    requires FiltersAligned(W, W', order, PermutationsOf(Range(N)), picks, I, N)
    requires |picks| == I - 1
    ensures forall t :: 0 <= t < I ==> multiset(W'[order[t]]) == multiset(W[order[t]])
  {
    var perms := PermutationsOf(Range(N));
    PermutationsSound(Range(N));
    forall t | 0 <= t < I
      ensures multiset(W'[order[t]]) == multiset(W[order[t]])
    {
      if t > 0 {
        var q := t - 1;
        var perm := perms[picks[q]];
        assert perm in perms;
        assert W'[order[q + 1]] == PermuteRows(W[order[q + 1]], perm);
        PermuteRowsMultiset(W[order[t]], perm);
      }
    }
  }

  /** The whole solver. `order` is the argsort of the correlations and
      `callerFilter` is what the caller's `demix_filter` holds after the call
      (the returned array itself when `overwrite` is set). The filter
      defaults to `None`, with which the solver always fails. */
  method SolvePermutation(Y: Tensor3, demixFilter: Option<Tensor3>, flooring: Option<real -> real>, sqrt: real -> real,
                          overwrite: bool, order: seq<nat>, N: nat, I: nat, J: nat)
    returns (r: Result<Tensor3>, callerFilter: Option<Tensor3>, ghost picks: seq<nat>)
    requires IsTensor3(Y, N, I, J)
    requires demixFilter.Some? ==> IsTensor3(demixFilter.value, I, N, N)
    requires demixFilter.Some? ==>
      && NormsNonZero(Y, Kernels.ResolveFlooring(flooring), sqrt, N, I, J)
      && IsArgsort(order, Correlations(Pattern(Y, Kernels.ResolveFlooring(flooring), sqrt, N, I, J), I, N, J))
    // `demix_filter.copy()` or `W.shape` fails on `None`; `indices[0]` fails when there are no bins
    ensures r.Err? <==> demixFilter.None? || I == 0
    ensures demixFilter.None? ==> r == Err(AbsentDemixFilter)
    ensures demixFilter.Some? && I == 0 ==> r == Err(EmptyIndex)
    ensures r.Err? ==> callerFilter == demixFilter
    ensures r.Ok? && overwrite ==> callerFilter == Some(r.value)
    ensures !overwrite ==> callerFilter == demixFilter
    ensures r.Ok? ==> IsTensor3(r.value, I, N, N)
    // every bin has its rows permuted, the reference bin not at all
    ensures r.Ok? ==> forall t :: 0 <= t < I ==> multiset(r.value[order[t]]) == multiset(demixFilter.value[order[t]])
    ensures r.Ok? ==> |picks| == I - 1 && IsIndexSeq(picks, |PermutationsOf(Range(N))|)
    ensures r.Ok? ==> Candidates(PermutationsOf(Range(N)), N)
    ensures r.Ok? ==> FiltersAligned(demixFilter.value, r.value, order, PermutationsOf(Range(N)), picks, I, N)
    // each choice is the first best match for the bins aligned before it
    ensures r.Ok? ==>
      ChoicesGreedy(Pattern(Y, Kernels.ResolveFlooring(flooring), sqrt, N, I, J), order, PermutationsOf(Range(N)), picks, I, N, J)
  {
    if demixFilter.None? {
      return Err(AbsentDemixFilter), demixFilter, [];
    }
    var W := demixFilter.value;
    var floor := Kernels.ResolveFlooring(flooring);
    var perms := PermutationsOf(Range(N));
    PermutationsAreCandidates(N);
    var P := Pattern(Y, floor, sqrt, N, I, J);
    if I == 0 {
      return Err(EmptyIndex), demixFilter, [];
    }
    var W';
    W', picks := AlignBins(P, W, order, perms, I, N, J);
    AlignedKeepsRows(W, W', order, picks, I, N);
    r := Ok(W');
    callerFilter := if overwrite then Some(W') else demixFilter;
  }
}
