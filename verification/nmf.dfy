/** The non-negative matrix factorisation (NMF) source-power model of ILRMA:
    reconstruction in its two layouts, the column renormalisation of the
    latent (partitioning) weights, and their initialisation.

    Indices: n source, i frequency bin, j frame, k NMF basis.
 */
module Nmf {
  import opened Tensors
  import Kernels

  datatype NmfModel =
    /** basis T (N, I, K) and activation V (N, K, J): one factorisation per source */
    | PerSource(basis: Tensor3, activation: Tensor3)
    /** latent Z (N, K), basis T (I, K), activation V (K, J): bases shared by
        all sources and gated by Z */
    | Partitioned(latent: Mat, sharedBasis: Mat, sharedActivation: Mat)

  predicate WellShaped(m: NmfModel, nSources: nat, nBins: nat, nFrames: nat, nBasis: nat)
  {
    match m
    case PerSource(T, V) =>
      IsTensor3(T, nSources, nBins, nBasis) && IsTensor3(V, nSources, nBasis, nFrames)
    case Partitioned(Z, T, V) =>
      IsMat(Z, nSources, nBasis) && IsMat(T, nBins, nBasis) && IsMat(V, nBasis, nFrames)
  }

  predicate MatNonNegative(A: Mat)
  {
    forall r, c :: 0 <= r < |A| && 0 <= c < |A[r]| ==> 0.0 <= A[r][c]
  }

  predicate MatPositive(A: Mat)
  {
    forall r, c :: 0 <= r < |A| && 0 <= c < |A[r]| ==> 0.0 < A[r][c]
  }

  predicate Tensor3NonNegative(A: Tensor3)
  {
    forall a :: 0 <= a < |A| ==> MatNonNegative(A[a])
  }

  predicate Tensor3Positive(A: Tensor3)
  {
    forall a :: 0 <= a < |A| ==> MatPositive(A[a])
  }

  predicate NonNegative(m: NmfModel)
  {
    match m
    case PerSource(T, V) => Tensor3NonNegative(T) && Tensor3NonNegative(V)
    case Partitioned(Z, T, V) => MatNonNegative(Z) && MatNonNegative(T) && MatNonNegative(V)
  }

  predicate Positive(m: NmfModel)
  {
    match m
    case PerSource(T, V) => Tensor3Positive(T) && Tensor3Positive(V)
    case Partitioned(Z, T, V) => MatPositive(Z) && MatPositive(T) && MatPositive(V)
  }

  /** The k-th term of the reconstruction of entry (n, i, j). */
  function Term(m: NmfModel, nSources: nat, nBins: nat, nFrames: nat, nBasis: nat,
                n: nat, i: nat, j: nat, k: nat): real
    requires WellShaped(m, nSources, nBins, nFrames, nBasis)
    requires n < nSources && i < nBins && j < nFrames && k < nBasis
  {
    match m
    case PerSource(T, V) => T[n][i][k] * V[n][k][j]
    case Partitioned(Z, T, V) => Z[n][k] * (T[i][k] * V[k][j])
  }

  /** `reconstruct_nmf`: R[n, i, j] = sum over k of T[n, i, k] V[n, k, j], or of
      Z[n, k] T[i, k] V[k, j] with the partitioning function. */
  function Reconstruct(m: NmfModel, nSources: nat, nBins: nat, nFrames: nat, nBasis: nat): (R: Tensor3)
    requires WellShaped(m, nSources, nBins, nFrames, nBasis)
    ensures IsTensor3(R, nSources, nBins, nFrames)
  {
    seq(nSources, n requires 0 <= n < nSources =>
      seq(nBins, i requires 0 <= i < nBins =>
        seq(nFrames, j requires 0 <= j < nFrames => Sum(Terms(m, nSources, nBins, nFrames, nBasis, n, i, j)))))
  }

  /** The terms summed over k for entry (n, i, j). */
  function Terms(m: NmfModel, nSources: nat, nBins: nat, nFrames: nat, nBasis: nat, n: nat, i: nat, j: nat): (t: seq<real>)
    requires WellShaped(m, nSources, nBins, nFrames, nBasis)
    requires n < nSources && i < nBins && j < nFrames
    ensures |t| == nBasis
  {
    seq(nBasis, k requires 0 <= k < nBasis => Term(m, nSources, nBins, nFrames, nBasis, n, i, j, k))
  }

  /** Non-negative factors reconstruct a non-negative power model, and
      positive factors (with at least one basis) a positive one. */
  lemma ReconstructSign(m: NmfModel, nSources: nat, nBins: nat, nFrames: nat, nBasis: nat)
    requires WellShaped(m, nSources, nBins, nFrames, nBasis)
    requires NonNegative(m)
    ensures var R := Reconstruct(m, nSources, nBins, nFrames, nBasis);
      forall n, i, j :: 0 <= n < nSources && 0 <= i < nBins && 0 <= j < nFrames ==> 0.0 <= R[n][i][j]
    ensures var R := Reconstruct(m, nSources, nBins, nFrames, nBasis);
      Positive(m) && nBasis > 0 ==>
      forall n, i, j :: 0 <= n < nSources && 0 <= i < nBins && 0 <= j < nFrames ==> 0.0 < R[n][i][j]
  {
    var R := Reconstruct(m, nSources, nBins, nFrames, nBasis);
    forall n, i, j | 0 <= n < nSources && 0 <= i < nBins && 0 <= j < nFrames
      ensures 0.0 <= R[n][i][j]
      ensures Positive(m) && nBasis > 0 ==> 0.0 < R[n][i][j]
    {
      var terms := Terms(m, nSources, nBins, nFrames, nBasis, n, i, j);
      assert R[n][i][j] == Sum(terms);
      forall k | 0 <= k < nBasis
        ensures 0.0 <= terms[k]
        ensures Positive(m) ==> 0.0 < terms[k]
      {
        TermSign(m, nSources, nBins, nFrames, nBasis, n, i, j, k);
      }
      SumNonNegative(terms);
      if Positive(m) && nBasis > 0 {
        SumPositive(terms, 0);
      }
    }
  }

  lemma TermSign(m: NmfModel, nSources: nat, nBins: nat, nFrames: nat, nBasis: nat,
                 n: nat, i: nat, j: nat, k: nat)
    requires WellShaped(m, nSources, nBins, nFrames, nBasis)
    requires n < nSources && i < nBins && j < nFrames && k < nBasis
    requires NonNegative(m)
    ensures 0.0 <= Term(m, nSources, nBins, nFrames, nBasis, n, i, j, k)
    ensures Positive(m) ==> 0.0 < Term(m, nSources, nBins, nFrames, nBasis, n, i, j, k)
  {
    match m
    case PerSource(T, V) =>
      assert 0.0 <= T[n][i][k] && 0.0 <= V[n][k][j];
    case Partitioned(Z, T, V) =>
      assert 0.0 <= Z[n][k] && 0.0 <= T[i][k] && 0.0 <= V[k][j];
      assert 0.0 <= T[i][k] * V[k][j];
  }

  /** The per-source bases that partitioning gates out of the shared ones:
      T_n[i, k] = Z[n, k] T[i, k]. */
  function GatedBasis(Z: Mat, T: Mat, nSources: nat, nBins: nat, nBasis: nat): (G: Tensor3)
    requires IsMat(Z, nSources, nBasis) && IsMat(T, nBins, nBasis)
    ensures IsTensor3(G, nSources, nBins, nBasis)
  {
    seq(nSources, n requires 0 <= n < nSources =>
      seq(nBins, i requires 0 <= i < nBins =>
        seq(nBasis, k requires 0 <= k < nBasis => Z[n][k] * T[i][k])))
  }

  /** The partitioned model is the per-source model whose bases are the gated
      shared bases and whose activations are the shared activations repeated
      for every source. */
  lemma PartitionedIsGatedPerSource(Z: Mat, T: Mat, V: Mat, nSources: nat, nBins: nat, nFrames: nat, nBasis: nat)
    requires WellShaped(Partitioned(Z, T, V), nSources, nBins, nFrames, nBasis)
    ensures var G := GatedBasis(Z, T, nSources, nBins, nBasis);
      var Vs := seq(nSources, n => V);
      WellShaped(PerSource(G, Vs), nSources, nBins, nFrames, nBasis) &&
      Reconstruct(Partitioned(Z, T, V), nSources, nBins, nFrames, nBasis) ==
      Reconstruct(PerSource(G, Vs), nSources, nBins, nFrames, nBasis)
  {
    var G := GatedBasis(Z, T, nSources, nBins, nBasis);
    var Vs := seq(nSources, n => V);
    var m1 := Partitioned(Z, T, V);
    var m2 := PerSource(G, Vs);
    assert WellShaped(m2, nSources, nBins, nFrames, nBasis);
    var R1 := Reconstruct(m1, nSources, nBins, nFrames, nBasis);
    var R2 := Reconstruct(m2, nSources, nBins, nFrames, nBasis);
    forall n, i, j | 0 <= n < nSources && 0 <= i < nBins && 0 <= j < nFrames
      ensures R1[n][i][j] == R2[n][i][j]
    {
      var t1 := Terms(m1, nSources, nBins, nFrames, nBasis, n, i, j);
      var t2 := Terms(m2, nSources, nBins, nFrames, nBasis, n, i, j);
      forall k | 0 <= k < nBasis
        ensures t1[k] == t2[k]
      {
        assert G[n][i][k] == Z[n][k] * T[i][k] && Vs[n] == V;
        assert Z[n][k] * (T[i][k] * V[k][j]) == (Z[n][k] * T[i][k]) * V[k][j];
      }
      assert t1 == t2;
    }
    assert forall n, i :: 0 <= n < nSources && 0 <= i < nBins ==> R1[n][i] == R2[n][i];
    assert forall n :: 0 <= n < nSources ==> R1[n] == R2[n];
  }

  /** Sum over sources of column k, `Z.sum(axis=0)[k]`. */
  function ColumnSum(Z: Mat, nSources: nat, k: nat): real
    requires |Z| == nSources
    requires forall n :: 0 <= n < nSources ==> k < |Z[n]|
  {
    Sum(seq(nSources, n requires 0 <= n < nSources => Z[n][k]))
  }

  /** `Z.sum(axis=0)`: the sum over sources of every column. */
  function ColumnSums(Z: Mat, nSources: nat, nBasis: nat): (s: seq<real>)
    requires IsMat(Z, nSources, nBasis)
    ensures |s| == nBasis && forall k :: 0 <= k < nBasis ==> s[k] == ColumnSum(Z, nSources, k)
  {
    seq(nBasis, k requires 0 <= k < nBasis => ColumnSum(Z, nSources, k))
  }

  /** Every column that a division by its sum touches has a positive sum. */
  predicate ColumnSumsPositive(Z: Mat, nSources: nat, nBasis: nat)
    requires IsMat(Z, nSources, nBasis)
  {
    nSources > 0 ==> forall k :: 0 <= k < nBasis ==> 0.0 < ColumnSum(Z, nSources, k)
  }

  /** Every column sums to one over sources. */
  predicate ColumnStochastic(Z: Mat, nSources: nat, nBasis: nat)
    requires IsMat(Z, nSources, nBasis)
  {
    forall k :: 0 <= k < nBasis ==> ColumnSum(Z, nSources, k) == 1.0
  }

  /** `Z / Z.sum(axis=0)`. */
  function NormalizeColumns(Z: Mat, nSources: nat, nBasis: nat): (Z': Mat)
    requires IsMat(Z, nSources, nBasis)
    requires MatNonNegative(Z)
    requires ColumnSumsPositive(Z, nSources, nBasis)
    ensures IsMat(Z', nSources, nBasis)
    ensures MatNonNegative(Z')
    ensures nSources > 0 ==> ColumnStochastic(Z', nSources, nBasis)
    ensures forall n, k :: 0 <= n < nSources && 0 <= k < nBasis ==>
      Z'[n][k] * ColumnSum(Z, nSources, k) == Z[n][k]
    ensures MatPositive(Z) ==> MatPositive(Z')
  {
    var Z' := seq(nSources, n requires 0 <= n < nSources =>
                seq(nBasis, k requires 0 <= k < nBasis => Z[n][k] / ColumnSum(Z, nSources, k)));
    DividedColumns(Z, Z', nSources, nBasis);
    Z'
  }

  /** Dividing every entry by its positive column sum gives columns that sum
      to one, keeps signs, and multiplies back to the original. */
  lemma DividedColumns(Z: Mat, Z': Mat, nSources: nat, nBasis: nat)
    requires IsMat(Z, nSources, nBasis) && IsMat(Z', nSources, nBasis)
    requires MatNonNegative(Z) && ColumnSumsPositive(Z, nSources, nBasis)
    requires forall n, k :: 0 <= n < nSources && 0 <= k < nBasis ==>
      Z'[n][k] == Z[n][k] / ColumnSum(Z, nSources, k)
    ensures MatNonNegative(Z')
    ensures nSources > 0 ==> ColumnStochastic(Z', nSources, nBasis)
    ensures forall n, k :: 0 <= n < nSources && 0 <= k < nBasis ==>
      Z'[n][k] * ColumnSum(Z, nSources, k) == Z[n][k]
    ensures MatPositive(Z) ==> MatPositive(Z')
  {
    if nSources > 0 {
      forall k | 0 <= k < nBasis
        ensures ColumnSum(Z', nSources, k) == 1.0
      {
        var s := ColumnSum(Z, nSources, k);
        var col := seq(nSources, n requires 0 <= n < nSources => Z[n][k]);
        var col' := seq(nSources, n requires 0 <= n < nSources => Z'[n][k]);
        SumDivide(col, col', s);
        SelfQuotient(s);
      }
    }
    assert MatNonNegative(Z') by {
      forall n, k | 0 <= n < |Z'| && 0 <= k < |Z'[n]|
        ensures 0.0 <= Z'[n][k]
      {
        QuotientSign(Z[n][k], ColumnSum(Z, nSources, k), Z'[n][k]);
      }
    }
    assert MatPositive(Z) ==> MatPositive(Z') by {
      forall n, k | 0 <= n < |Z'| && 0 <= k < |Z'[n]| && MatPositive(Z)
        ensures 0.0 < Z'[n][k]
      {
        assert 0.0 < Z[n][k];
        QuotientSign(Z[n][k], ColumnSum(Z, nSources, k), Z'[n][k]);
      }
    }
    forall n, k | 0 <= n < nSources && 0 <= k < nBasis
      ensures Z'[n][k] * ColumnSum(Z, nSources, k) == Z[n][k]
    {
      QuotientSign(Z[n][k], ColumnSum(Z, nSources, k), Z'[n][k]);
    }
  }

  lemma QuotientSign(x: real, s: real, q: real)
    requires 0.0 <= x && 0.0 < s && q == x / s
    ensures 0.0 <= q && (0.0 < x ==> 0.0 < q)
    ensures q * s == x
  {
  }

  /** Renormalising an already column-stochastic matrix changes nothing. */
  lemma NormalizeColumnsIdempotent(Z: Mat, nSources: nat, nBasis: nat)
    requires IsMat(Z, nSources, nBasis) && MatNonNegative(Z) && ColumnSumsPositive(Z, nSources, nBasis)
    ensures var Z' := NormalizeColumns(Z, nSources, nBasis);
      ColumnSumsPositive(Z', nSources, nBasis) &&
      NormalizeColumns(Z', nSources, nBasis) == Z'
  {
    var Z' := NormalizeColumns(Z, nSources, nBasis);
    var Z'' := NormalizeColumns(Z', nSources, nBasis);
    if nSources > 0 {
      forall n, k | 0 <= n < nSources && 0 <= k < nBasis
        ensures Z''[n][k] == Z'[n][k]
      {
        assert ColumnSum(Z', nSources, k) == 1.0;
      }
      assert forall n :: 0 <= n < nSources ==> Z''[n] == Z'[n];
    }
  }

  /** `Z * S[newaxis, :]`, scaling column k by S[k]. */
  function ScaleColumns(Z: Mat, S: seq<real>, nSources: nat, nBasis: nat): (Z': Mat)
    requires IsMat(Z, nSources, nBasis) && |S| == nBasis
    ensures IsMat(Z', nSources, nBasis)
  {
    seq(nSources, n requires 0 <= n < nSources => seq(nBasis, k requires 0 <= k < nBasis => Z[n][k] * S[k]))
  }

  /** Scaling columns by positive factors does not change the renormalised matrix. */
  lemma NormalizeColumnsScaleInvariant(Z: Mat, S: seq<real>, nSources: nat, nBasis: nat)
    requires IsMat(Z, nSources, nBasis) && MatNonNegative(Z) && ColumnSumsPositive(Z, nSources, nBasis)
    requires |S| == nBasis && forall k :: 0 <= k < nBasis ==> 0.0 < S[k]
    ensures var Zs := ScaleColumns(Z, S, nSources, nBasis);
      MatNonNegative(Zs) && ColumnSumsPositive(Zs, nSources, nBasis) &&
      NormalizeColumns(Zs, nSources, nBasis) == NormalizeColumns(Z, nSources, nBasis)
  {
    var Zs := ScaleColumns(Z, S, nSources, nBasis);
    var B := NormalizeColumns(Z, nSources, nBasis);
    ScaledColumns(Z, S, nSources, nBasis);
    forall n, k | 0 <= n < nSources && 0 <= k < nBasis
      ensures B[n][k] * ColumnSum(Zs, nSources, k) == Zs[n][k]
    {
      ScaledEntry(Z, S, nSources, nBasis, n, k);
      ScaleBoth(B[n][k], ColumnSum(Z, nSources, k), Z[n][k], S[k]);
    }
    NormalizeColumnsUnique(Zs, B, nSources, nBasis);
  }

  /** The renormalised matrix is the only one whose entries, times their
      column sums, give back the input. */
  lemma NormalizeColumnsUnique(Z: Mat, A: Mat, nSources: nat, nBasis: nat)
    requires IsMat(Z, nSources, nBasis) && MatNonNegative(Z) && ColumnSumsPositive(Z, nSources, nBasis)
    requires IsMat(A, nSources, nBasis)
    requires forall n, k :: 0 <= n < nSources && 0 <= k < nBasis ==> A[n][k] * ColumnSum(Z, nSources, k) == Z[n][k]
    ensures A == NormalizeColumns(Z, nSources, nBasis)
  {
    var B := NormalizeColumns(Z, nSources, nBasis);
    forall n | 0 <= n < nSources
      ensures A[n] == B[n]
    {
      forall k | 0 <= k < nBasis
        ensures A[n][k] == B[n][k]
      {
        SameQuotient(A[n][k], B[n][k], ColumnSum(Z, nSources, k), Z[n][k]);
      }
    }
  }

  lemma ScaledEntry(Z: Mat, S: seq<real>, nSources: nat, nBasis: nat, n: nat, k: nat)
    requires IsMat(Z, nSources, nBasis) && |S| == nBasis
    requires n < nSources && k < nBasis
    ensures ScaleColumns(Z, S, nSources, nBasis)[n][k] == Z[n][k] * S[k]
  {
  }

  lemma ScaledColumnSum(Z: Mat, S: seq<real>, nSources: nat, nBasis: nat, k: nat)
    requires IsMat(Z, nSources, nBasis) && |S| == nBasis && k < nBasis
    ensures ColumnSum(ScaleColumns(Z, S, nSources, nBasis), nSources, k) == S[k] * ColumnSum(Z, nSources, k)
  {
    var Zs := ScaleColumns(Z, S, nSources, nBasis);
    var col := seq(nSources, n requires 0 <= n < nSources => Z[n][k]);
    var cols := seq(nSources, n requires 0 <= n < nSources => Zs[n][k]);
    SumScale(col, cols, S[k]);
  }

  lemma ScaledColumns(Z: Mat, S: seq<real>, nSources: nat, nBasis: nat)
    requires IsMat(Z, nSources, nBasis) && MatNonNegative(Z) && ColumnSumsPositive(Z, nSources, nBasis)
    requires |S| == nBasis && forall k :: 0 <= k < nBasis ==> 0.0 < S[k]
    ensures var Zs := ScaleColumns(Z, S, nSources, nBasis);
      && MatNonNegative(Zs)
      && (forall k :: 0 <= k < nBasis ==> ColumnSum(Zs, nSources, k) == S[k] * ColumnSum(Z, nSources, k))
      && ColumnSumsPositive(Zs, nSources, nBasis)
  {
    var Zs := ScaleColumns(Z, S, nSources, nBasis);
    forall n, k | 0 <= n < nSources && 0 <= k < nBasis
      ensures 0.0 <= Zs[n][k]
    {
      assert 0.0 <= Z[n][k];
    }
    forall k | 0 <= k < nBasis
      ensures ColumnSum(Zs, nSources, k) == S[k] * ColumnSum(Z, nSources, k)
    {
      ScaledColumnSum(Z, S, nSources, nBasis, k);
    }
  }

  /** b * s == x gives b * (c * s) == x * c. */
  lemma ScaleBoth(b: real, s: real, x: real, c: real)
    requires b * s == x
    ensures b * (c * s) == x * c
  {
  }

  /** Two solutions of a * s == x with s non-zero agree. */
  lemma SameQuotient(a: real, b: real, s: real, x: real)
    requires s != 0.0 && a * s == x && b * s == x
    ensures a == b
  {
    assert (a - b) * s == 0.0;
  }

  /** Entrywise product `G * Z`. */
  function Hadamard(G: Mat, Z: Mat, nRows: nat, nCols: nat): (H: Mat)
    requires IsMat(G, nRows, nCols) && IsMat(Z, nRows, nCols)
    ensures IsMat(H, nRows, nCols)
  {
    seq(nRows, r requires 0 <= r < nRows => seq(nCols, c requires 0 <= c < nCols => G[r][c] * Z[r][c]))
  }

  /** The last two lines of `update_latent`: the multiplicative step by the
      gain `(num / denom) ** exponent`, then the renormalisation over sources.
      Z only needs non-negative entries and positive sums over sources, as a
      hard partition such as the identity has. */
  function UpdateLatent(Z: Mat, gain: Mat, nSources: nat, nBasis: nat): (Z': Mat)
    requires IsMat(Z, nSources, nBasis) && IsMat(gain, nSources, nBasis)
    requires MatNonNegative(Z) && ColumnSumsPositive(Z, nSources, nBasis) && MatPositive(gain)
    ensures IsMat(Z', nSources, nBasis)
    ensures MatNonNegative(Z')
    ensures MatPositive(Z) ==> MatPositive(Z')
    ensures nSources > 0 ==> ColumnStochastic(Z', nSources, nBasis)
    ensures forall n, k :: 0 <= n < nSources && 0 <= k < nBasis ==>
      Z'[n][k] * ColumnSum(Hadamard(gain, Z, nSources, nBasis), nSources, k) == gain[n][k] * Z[n][k]
  {
    var H := Hadamard(gain, Z, nSources, nBasis);
    GainedSigns(Z, gain, H, nSources, nBasis);
    NormalizeColumns(H, nSources, nBasis)
  }

  /** A positive gain keeps the signs of Z and its positive sums over sources. */
  lemma GainedSigns(Z: Mat, gain: Mat, H: Mat, nSources: nat, nBasis: nat)
    requires IsMat(Z, nSources, nBasis) && IsMat(gain, nSources, nBasis)
    requires MatNonNegative(Z) && ColumnSumsPositive(Z, nSources, nBasis) && MatPositive(gain)
    requires H == Hadamard(gain, Z, nSources, nBasis)
    ensures MatNonNegative(H) && (MatPositive(Z) ==> MatPositive(H))
    ensures ColumnSumsPositive(H, nSources, nBasis)
  {
    assert MatNonNegative(H) by {
      forall n, k | 0 <= n < |H| && 0 <= k < |H[n]|
        ensures 0.0 <= H[n][k]
      {
        ProductSign(gain[n][k], Z[n][k]);
      }
    }
    if MatPositive(Z) {
      forall n, k | 0 <= n < |H| && 0 <= k < |H[n]|
        ensures 0.0 < H[n][k]
      {
        ProductSign(gain[n][k], Z[n][k]);
      }
    }
    if nSources > 0 {
      forall k | 0 <= k < nBasis
        ensures 0.0 < ColumnSum(H, nSources, k)
      {
        GainedColumnPositive(Z, gain, H, nSources, nBasis, k);
      }
    }
  }

  lemma GainedColumnPositive(Z: Mat, gain: Mat, H: Mat, nSources: nat, nBasis: nat, k: nat)
    requires IsMat(Z, nSources, nBasis) && IsMat(gain, nSources, nBasis) && MatPositive(gain)
    requires H == Hadamard(gain, Z, nSources, nBasis) && MatNonNegative(H)
    requires k < nBasis && 0.0 < ColumnSum(Z, nSources, k)
    ensures 0.0 < ColumnSum(H, nSources, k)
  {
    var col := seq(nSources, n requires 0 <= n < nSources => Z[n][k]);
    var col' := seq(nSources, n requires 0 <= n < nSources => H[n][k]);
    var n := PositiveTerm(col);
    ProductSign(gain[n][k], Z[n][k]);
    assert AllNonNegative(col');
    SumPositive(col', n);
  }

  /** A positive factor keeps the sign of the other. */
  lemma ProductSign(g: real, z: real)
    requires 0.0 < g && 0.0 <= z
    ensures 0.0 <= g * z && (0.0 < z ==> 0.0 < g * z)
  {
  }

  /** A column-stochastic matrix has positive column sums. */
  lemma StochasticSumsPositive(Z: Mat, nSources: nat, nBasis: nat)
    requires IsMat(Z, nSources, nBasis)
    requires nSources > 0 ==> ColumnStochastic(Z, nSources, nBasis)
    ensures ColumnSumsPositive(Z, nSources, nBasis)
  {
  }

  /** Elementwise flooring of a matrix. */
  function FloorMat(floor: real -> real, A: Mat): (F: Mat)
    ensures |F| == |A|
    ensures forall r :: 0 <= r < |A| ==> |F[r]| == |A[r]|
    ensures forall r, c :: 0 <= r < |A| && 0 <= c < |A[r]| ==> F[r][c] == floor(A[r][c])
  {
    seq(|A|, r requires 0 <= r < |A| => seq(|A[r]|, c requires 0 <= c < |A[r]| => floor(A[r][c])))
  }

  /** Elementwise flooring of a 3-tensor. */
  function FloorTensor3(floor: real -> real, A: Tensor3): (F: Tensor3)
    ensures |F| == |A|
    ensures forall a :: 0 <= a < |A| ==> F[a] == FloorMat(floor, A[a])
  {
    seq(|A|, a requires 0 <= a < |A| => FloorMat(floor, A[a]))
  }

  /** The random initialisation of Z in `_init_nmf`: a draw renormalised
      over sources, then floored. */
  function InitLatent(draw: Mat, floor: real -> real, nSources: nat, nBasis: nat): (Z: Mat)
    requires IsMat(draw, nSources, nBasis) && MatNonNegative(draw)
    requires ColumnSumsPositive(draw, nSources, nBasis)
    ensures IsMat(Z, nSources, nBasis)
    ensures forall n, k :: 0 <= n < nSources && 0 <= k < nBasis ==>
      Z[n][k] == floor(draw[n][k] / ColumnSum(draw, nSources, k))
    ensures Kernels.IsIdentity(floor) && nSources > 0 ==> ColumnStochastic(Z, nSources, nBasis)
    ensures Kernels.KeepsNonNegative(floor) ==> MatNonNegative(Z)
  {
    var N := NormalizeColumns(draw, nSources, nBasis);
    FloorIdentity(floor, N);
    FloorMatNonNegative(floor, N);
    FloorMat(floor, N)
  }

  /** Flooring that keeps non-negative values non-negative keeps a
      non-negative matrix non-negative. */
  lemma FloorMatNonNegative(floor: real -> real, A: Mat)
    ensures Kernels.KeepsNonNegative(floor) && MatNonNegative(A) ==> MatNonNegative(FloorMat(floor, A))
  {
    if Kernels.KeepsNonNegative(floor) && MatNonNegative(A) {
      var F := FloorMat(floor, A);
      forall r, c | 0 <= r < |F| && 0 <= c < |F[r]|
        ensures 0.0 <= F[r][c]
      {
        assert 0.0 <= A[r][c];
      }
    }
  }

  lemma FloorTensor3NonNegative(floor: real -> real, A: Tensor3)
    ensures Kernels.KeepsNonNegative(floor) && Tensor3NonNegative(A) ==> Tensor3NonNegative(FloorTensor3(floor, A))
  {
    forall a | 0 <= a < |A|
      ensures Kernels.KeepsNonNegative(floor) && Tensor3NonNegative(A) ==> MatNonNegative(FloorTensor3(floor, A)[a])
    {
      FloorMatNonNegative(floor, A[a]);
    }
  }

  lemma FloorIdentity(floor: real -> real, A: Mat)
    ensures Kernels.IsIdentity(floor) ==> FloorMat(floor, A) == A
  {
    if Kernels.IsIdentity(floor) {
      var F := FloorMat(floor, A);
      assert forall r, c :: 0 <= r < |A| && 0 <= c < |A[r]| ==> F[r][c] == A[r][c];
      assert forall r :: 0 <= r < |A| ==> F[r] == A[r];
    }
  }
}
