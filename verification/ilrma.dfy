/** The state of an ILRMA separator and the operations on it that are exact
    tensor algebra: `separate`, `_reset` with `_init_nmf`, the power
    normalisation `normalize_by_power`, and the output `__call__` returns.

    ILRMA is determined: the number of sources equals the number of
    channels, written N below. Shapes: mixture X (N, I, J), demixing filter
    W (I, N, N), separated output Y (N, I, J).
 */
module Ilrma {
  import opened Errors
  import opened Tensors
  import opened Nmf
  import opened IlrmaConfig
  import Kernels

  datatype Dims = Dims(channels: nat, bins: nat, frames: nat, bases: nat)

  datatype State = State(
    input: Tensor3,
    /** `None` for the ISS family, which updates the output directly */
    demixFilter: Option<Tensor3>,
    output: Tensor3,
    nmf: NmfModel)

  /** The channel vector x_ij. */
  function Column(X: Tensor3, nChannels: nat, i: nat, j: nat): (x: seq<real>)
    requires |X| == nChannels
    requires forall m :: 0 <= m < nChannels ==> i < |X[m]| && j < |X[m][i]|
    ensures |x| == nChannels
  {
    seq(nChannels, m requires 0 <= m < nChannels => X[m][i][j])
  }

  /** `separate`: y_ij = W_i x_ij, that is Y[n, i, j] = sum over m of W[i, n, m] X[m, i, j]. */
  function Separate(X: Tensor3, W: Tensor3, nSources: nat, nChannels: nat, nBins: nat, nFrames: nat): (Y: Tensor3)
    requires IsTensor3(X, nChannels, nBins, nFrames)
    requires IsTensor3(W, nBins, nSources, nChannels)
    ensures IsTensor3(Y, nSources, nBins, nFrames)
  {
    seq(nSources, n requires 0 <= n < nSources =>
      seq(nBins, i requires 0 <= i < nBins =>
        seq(nFrames, j requires 0 <= j < nFrames => Dot(W[i][n], Column(X, nChannels, i, j)))))
  }

  /** `np.tile(np.eye(N, M), (I, 1, 1))`. */
  function IdentityFilter(nBins: nat, nSources: nat, nChannels: nat): (W: Tensor3)
    ensures IsTensor3(W, nBins, nSources, nChannels)
    ensures forall i, n, m :: 0 <= i < nBins && 0 <= n < nSources && 0 <= m < nChannels ==>
      W[i][n][m] == if n == m then 1.0 else 0.0
  {
    seq(nBins, i requires 0 <= i < nBins =>
      seq(nSources, n requires 0 <= n < nSources =>
        seq(nChannels, m requires 0 <= m < nChannels => if n == m then 1.0 else 0.0)))
  }

  /** Separating with the default identity filter returns the mixture. */
  lemma SeparateIdentity(X: Tensor3, nChannels: nat, nBins: nat, nFrames: nat)
    requires IsTensor3(X, nChannels, nBins, nFrames)
    ensures Separate(X, IdentityFilter(nBins, nChannels, nChannels), nChannels, nChannels, nBins, nFrames) == X
  {
    var W := IdentityFilter(nBins, nChannels, nChannels);
    var Y := Separate(X, W, nChannels, nChannels, nBins, nFrames);
    forall n | 0 <= n < nChannels
      ensures Y[n] == X[n]
    {
      forall i | 0 <= i < nBins
        ensures Y[n][i] == X[n][i]
      {
        forall j | 0 <= j < nFrames
          ensures Y[n][i][j] == X[n][i][j]
        {
          var x := Column(X, nChannels, i, j);
          var terms := seq(nChannels, m requires 0 <= m < nChannels => W[i][n][m] * x[m]);
          SumSingleTerm(terms, n);
        }
      }
    }
  }

  predicate NonZero(psi: seq<real>)
  {
    forall n :: 0 <= n < |psi| ==> psi[n] != 0.0
  }

  /** Row n of every bin of W' is that of W divided by psi[n]. */
  predicate RowsDivided(W: Tensor3, W': Tensor3, psi: seq<real>, nBins: nat, nSources: nat, nChannels: nat)
    requires IsTensor3(W, nBins, nSources, nChannels) && IsTensor3(W', nBins, nSources, nChannels)
    requires |psi| == nSources && NonZero(psi)
  {
    forall i, n, m :: 0 <= i < nBins && 0 <= n < nSources && 0 <= m < nChannels ==>
      W'[i][n][m] == W[i][n][m] / psi[n]
  }

  /** Source n of Y' is that of Y divided by psi[n]. */
  predicate SourcesDivided(Y: Tensor3, Y': Tensor3, psi: seq<real>, nSources: nat, nBins: nat, nFrames: nat)
    requires IsTensor3(Y, nSources, nBins, nFrames) && IsTensor3(Y', nSources, nBins, nFrames)
    requires |psi| == nSources && NonZero(psi)
  {
    forall n, i, j :: 0 <= n < nSources && 0 <= i < nBins && 0 <= j < nFrames ==>
      Y'[n][i][j] == Y[n][i][j] / psi[n]
  }

  /** `W / psi[newaxis, :, newaxis]`: row n of every bin divided by psi[n]. */
  function DivideRows(W: Tensor3, psi: seq<real>, nBins: nat, nSources: nat, nChannels: nat): (W': Tensor3)
    requires IsTensor3(W, nBins, nSources, nChannels)
    requires |psi| == nSources && NonZero(psi)
    ensures IsTensor3(W', nBins, nSources, nChannels)
    ensures RowsDivided(W, W', psi, nBins, nSources, nChannels)
  {
    seq(nBins, i requires 0 <= i < nBins =>
      seq(nSources, n requires 0 <= n < nSources =>
        seq(nChannels, m requires 0 <= m < nChannels => W[i][n][m] / psi[n])))
  }

  /** `Y / psi[:, newaxis, newaxis]`: source n divided by psi[n]. */
  function DivideSources(Y: Tensor3, psi: seq<real>, nSources: nat, nBins: nat, nFrames: nat): (Y': Tensor3)
    requires IsTensor3(Y, nSources, nBins, nFrames)
    requires |psi| == nSources && NonZero(psi)
    ensures IsTensor3(Y', nSources, nBins, nFrames)
    ensures SourcesDivided(Y, Y', psi, nSources, nBins, nFrames)
  {
    seq(nSources, n requires 0 <= n < nSources =>
      seq(nBins, i requires 0 <= i < nBins =>
        seq(nFrames, j requires 0 <= j < nFrames => Y[n][i][j] / psi[n])))
  }

  /** Dividing the rows of W divides the separated sources: the IP family's
      update of W and the ISS family's update of Y give the same signal. */
  lemma SeparateDividedRows(X: Tensor3, W: Tensor3, psi: seq<real>, nSources: nat, nChannels: nat, nBins: nat, nFrames: nat)
    requires IsTensor3(X, nChannels, nBins, nFrames)
    requires IsTensor3(W, nBins, nSources, nChannels)
    requires |psi| == nSources && NonZero(psi)
    ensures Separate(X, DivideRows(W, psi, nBins, nSources, nChannels), nSources, nChannels, nBins, nFrames) ==
            DivideSources(Separate(X, W, nSources, nChannels, nBins, nFrames), psi, nSources, nBins, nFrames)
  {
    var W' := DivideRows(W, psi, nBins, nSources, nChannels);
    var A := Separate(X, W', nSources, nChannels, nBins, nFrames);
    var B := DivideSources(Separate(X, W, nSources, nChannels, nBins, nFrames), psi, nSources, nBins, nFrames);
    forall n | 0 <= n < nSources
      ensures A[n] == B[n]
    {
      forall i | 0 <= i < nBins
        ensures A[n][i] == B[n][i]
      {
        forall j | 0 <= j < nFrames
          ensures A[n][i][j] == B[n][i][j]
        {
          DotDividedRow(W[i][n], W'[i][n], Column(X, nChannels, i, j), psi[n]);
        }
      }
    }
  }

  /** A row divided by q has its inner product with any x divided by q. */
  lemma DotDividedRow(w: seq<real>, w': seq<real>, x: seq<real>, q: real)
    requires |w| == |w'| == |x| && q != 0.0
    requires forall m :: 0 <= m < |w| ==> w'[m] == w[m] / q
    ensures Dot(w', x) == Dot(w, x) / q
  {
    forall m | 0 <= m < |w|
      ensures Products(w', x)[m] == Products(w, x)[m] / q
    {
      QuotientProduct(w[m], x[m], q, w'[m]);
    }
    SumDivide(Products(w, x), Products(w', x), q);
  }

  /** The shapes and the family invariant every state of a separator keeps. */
  predicate Valid(c: Config, d: Dims, s: State)
  {
    && IsTensor3(s.input, d.channels, d.bins, d.frames)
    && IsTensor3(s.output, d.channels, d.bins, d.frames)
    && (IsIpFamily(c.algorithm) <==> s.demixFilter.Some?)
    && (s.demixFilter.Some? ==> IsTensor3(s.demixFilter.value, d.bins, d.channels, d.channels))
    && WellShaped(s.nmf, d.channels, d.bins, d.frames, d.bases)
    && (c.partitioning <==> s.nmf.Partitioned?)
  }

  /** The separated signal the updates work on: `separate(input, W)` for the
      IP family, the stored output for the ISS family. */
  function CurrentSeparated(c: Config, d: Dims, s: State): (Y: Tensor3)
    requires Valid(c, d, s)
    ensures IsTensor3(Y, d.channels, d.bins, d.frames)
  {
    if IsIpFamily(c.algorithm) then Separate(s.input, s.demixFilter.value, d.channels, d.channels, d.bins, d.frames)
    else s.output
  }

  // ---------------------------------------------------------------- reset

  /** An NMF factor as stored in an attribute: shared (partitioning) or per source. */
  datatype Factor = SharedFactor(m: Mat) | PerSourceFactor(t: Tensor3)

  /** The attributes `_reset` tests with `hasattr`, after the keyword
      arguments are set: `None` means the attribute does not exist. For the
      filter, `Some(None)` means it exists and holds `None`. */
  datatype Attributes = Attributes(
    demixFilter: Option<Option<Tensor3>>,
    latent: Option<Mat>,
    basis: Option<Factor>,
    activation: Option<Factor>)

  /** The random arrays `_init_nmf` would draw from `rng`. */
  datatype Draws = Draws(latent: Mat, basis: Factor, activation: Factor)

  predicate BasisShaped(f: Factor, partitioning: bool, d: Dims)
  {
    if partitioning then f.SharedFactor? && IsMat(f.m, d.bins, d.bases)
    else f.PerSourceFactor? && IsTensor3(f.t, d.channels, d.bins, d.bases)
  }

  predicate ActivationShaped(f: Factor, partitioning: bool, d: Dims)
  {
    if partitioning then f.SharedFactor? && IsMat(f.m, d.bases, d.frames)
    else f.PerSourceFactor? && IsTensor3(f.t, d.channels, d.bases, d.frames)
  }

  predicate AttributesShaped(a: Attributes, partitioning: bool, d: Dims)
  {
    && (a.demixFilter.Some? && a.demixFilter.value.Some? ==> IsTensor3(a.demixFilter.value.value, d.bins, d.channels, d.channels))
    && (a.latent.Some? ==> IsMat(a.latent.value, d.channels, d.bases))
    && (a.basis.Some? ==> BasisShaped(a.basis.value, partitioning, d))
    && (a.activation.Some? ==> ActivationShaped(a.activation.value, partitioning, d))
  }

  predicate DrawsShaped(r: Draws, partitioning: bool, d: Dims)
  {
    && IsMat(r.latent, d.channels, d.bases)
    && MatNonNegative(r.latent)
    && ColumnSumsPositive(r.latent, d.channels, d.bases)
    && BasisShaped(r.basis, partitioning, d)
    && ActivationShaped(r.activation, partitioning, d)
  }

  /** `_init_nmf`: every factor is the existing attribute if there is one,
      otherwise a floored random draw (Z renormalised over sources first). */
  function InitNmf(c: Config, d: Dims, a: Attributes, r: Draws): (m: NmfModel)
    requires AttributesShaped(a, c.partitioning, d) && DrawsShaped(r, c.partitioning, d)
    ensures WellShaped(m, d.channels, d.bins, d.frames, d.bases)
    ensures c.partitioning <==> m.Partitioned?
    ensures m.Partitioned? ==>
      && m.latent == (if a.latent.Some? then a.latent.value else InitLatent(r.latent, c.floor, d.channels, d.bases))
      && m.sharedBasis == (if a.basis.Some? then a.basis.value.m else FloorMat(c.floor, r.basis.m))
      && m.sharedActivation == (if a.activation.Some? then a.activation.value.m else FloorMat(c.floor, r.activation.m))
    ensures m.PerSource? ==>
      && m.basis == (if a.basis.Some? then a.basis.value.t else FloorTensor3(c.floor, r.basis.t))
      && m.activation == (if a.activation.Some? then a.activation.value.t else FloorTensor3(c.floor, r.activation.t))
  {
    if c.partitioning then
      var Z := if a.latent.Some? then a.latent.value else InitLatent(r.latent, c.floor, d.channels, d.bases);
      var T := if a.basis.Some? then a.basis.value.m else FloorMat(c.floor, r.basis.m);
      var V := if a.activation.Some? then a.activation.value.m else FloorMat(c.floor, r.activation.m);
      Partitioned(Z, T, V)
    else
      var T := if a.basis.Some? then a.basis.value.t else FloorTensor3(c.floor, r.basis.t);
      var V := if a.activation.Some? then a.activation.value.t else FloorTensor3(c.floor, r.activation.t);
      assert IsTensor3(T, d.channels, d.bins, d.bases) by {
        if a.basis.None? {
          assert forall n :: 0 <= n < d.channels ==> T[n] == FloorMat(c.floor, r.basis.t[n]);
        }
      }
      assert IsTensor3(V, d.channels, d.bases, d.frames) by {
        if a.activation.None? {
          assert forall n :: 0 <= n < d.channels ==> V[n] == FloorMat(c.floor, r.activation.t[n]);
        }
      }
      PerSource(T, V)
  }

  /** A stored factor or a draw holds no negative entry. */
  predicate FactorNonNegative(f: Factor)
  {
    match f
    case SharedFactor(m) => MatNonNegative(m)
    case PerSourceFactor(t) => Tensor3NonNegative(t)
  }

  predicate AttributesNonNegative(a: Attributes)
  {
    && (a.latent.Some? ==> MatNonNegative(a.latent.value))
    && (a.basis.Some? ==> FactorNonNegative(a.basis.value))
    && (a.activation.Some? ==> FactorNonNegative(a.activation.value))
  }

  /** `_init_nmf` and `_reset` start from a non-negative NMF model when the
      given factors and the draws are non-negative and flooring keeps them so. */
  lemma InitNmfNonNegative(c: Config, d: Dims, a: Attributes, input: Option<Tensor3>, r: Draws)
    requires input.Some? ==> IsTensor3(input.value, d.channels, d.bins, d.frames)
    requires AttributesShaped(a, c.partitioning, d) && DrawsShaped(r, c.partitioning, d)
    requires AttributesNonNegative(a) && FactorNonNegative(r.basis) && FactorNonNegative(r.activation)
    requires Kernels.KeepsNonNegative(c.floor)
    ensures NonNegative(InitNmf(c, d, a, r))
    ensures Reset(c, d, a, input, r).Ok? ==> NonNegative(Reset(c, d, a, input, r).value.nmf)
  {
    if c.partitioning {
      FloorMatNonNegative(c.floor, r.basis.m);
      FloorMatNonNegative(c.floor, r.activation.m);
    } else {
      FloorTensor3NonNegative(c.floor, r.basis.t);
      FloorTensor3NonNegative(c.floor, r.activation.t);
    }
  }

  /** The filter the base `_reset` starts from: the identity when the
      attribute does not exist, otherwise (a copy of) the attribute. */
  function InitialFilter(a: Attributes, d: Dims): Option<Tensor3>
  {
    match a.demixFilter
    case None => Some(IdentityFilter(d.bins, d.channels, d.channels))
    case Some(w) => w
  }

  /** `_reset` of a GaussILRMA, TILRMA or GGDILRMA. */
  function Reset(c: Config, d: Dims, a: Attributes, input: Option<Tensor3>, r: Draws): (res: Result<State>)
    requires input.Some? ==> IsTensor3(input.value, d.channels, d.bins, d.frames)
    requires AttributesShaped(a, c.partitioning, d) && DrawsShaped(r, c.partitioning, d)
    ensures res == Err(NoInput) <==> input.None?
    ensures res == Err(MissingDemixFilter) <==> input.Some? && a.demixFilter == Some(None)
    ensures res.Ok? ==> Valid(c, d, res.value) && res.value.input == input.value
    ensures res.Ok? ==> res.value.nmf == InitNmf(c, d, a, r)
    // the ISS family carries no filter; the IP family keeps the initial one
    ensures res.Ok? && !IsIpFamily(c.algorithm) ==> res.value.demixFilter.None?
    ensures res.Ok? && IsIpFamily(c.algorithm) && a.demixFilter.None? ==>
      res.value.demixFilter == Some(IdentityFilter(d.bins, d.channels, d.channels))
    ensures res.Ok? && IsIpFamily(c.algorithm) && a.demixFilter.Some? ==>
      res.value.demixFilter == a.demixFilter.value
    // the initial output is the mixture separated by the initial filter
    ensures res.Ok? && a.demixFilter.None? ==> res.value.output == input.value
    ensures res.Ok? && a.demixFilter.Some? ==>
      res.value.output == Separate(input.value, a.demixFilter.value.value, d.channels, d.channels, d.bins, d.frames)
  {
    if input.None? then Err(NoInput)
    else
      var X := input.value;
      var W := InitialFilter(a, d);
      if W.None? then Err(MissingDemixFilter)
      else
        var Y := Separate(X, W.value, d.channels, d.channels, d.bins, d.frames);
        SeparateIdentity(X, d.channels, d.bins, d.frames);
        var nmf := InitNmf(c, d, a, r);
        Ok(State(X, if IsIpFamily(c.algorithm) then W else None, Y, nmf))
  }

  /** The attributes a separator holds after a call that left it in state `s`. */
  function AttributesAfter(s: State): Attributes
  {
    match s.nmf
    case PerSource(T, V) => Attributes(Some(s.demixFilter), None, Some(PerSourceFactor(T)), Some(PerSourceFactor(V)))
    case Partitioned(Z, T, V) => Attributes(Some(s.demixFilter), Some(Z), Some(SharedFactor(T)), Some(SharedFactor(V)))
  }

  /** Calling an ISS-family separator a second time fails: the first call
      left `demix_filter = None` behind, and `_reset` separates with it. */
  lemma SecondIssResetFails(c: Config, d: Dims, a: Attributes, X: Tensor3, X2: Tensor3, r: Draws, r2: Draws)
    requires IsTensor3(X, d.channels, d.bins, d.frames) && IsTensor3(X2, d.channels, d.bins, d.frames)
    requires AttributesShaped(a, c.partitioning, d)
    requires DrawsShaped(r, c.partitioning, d) && DrawsShaped(r2, c.partitioning, d)
    requires !IsIpFamily(c.algorithm)
    requires Reset(c, d, a, Some(X), r).Ok?
    ensures var s := Reset(c, d, a, Some(X), r).value;
      AttributesShaped(AttributesAfter(s), c.partitioning, d) &&
      Reset(c, d, AttributesAfter(s), Some(X2), r2) == Err(MissingDemixFilter)
  {
  }

  // ---------------------------------------------------------- normalisation

  /** `np.mean(np.abs(A) ** 2)` over a (bins, frames) slice. */
  function MeanSquare(A: Mat, nBins: nat, nFrames: nat): real
    requires IsMat(A, nBins, nFrames)
    requires nBins * nFrames > 0
  {
    Sum(RowPowers(A, nBins, nFrames)) / (nBins * nFrames) as real
  }

  /** The power of every row. */
  function RowPowers(A: Mat, nBins: nat, nFrames: nat): (p: seq<real>)
    requires IsMat(A, nBins, nFrames)
    ensures |p| == nBins && forall i :: 0 <= i < nBins ==> p[i] == RowPower(A, nFrames, i)
  {
    seq(nBins, i requires 0 <= i < nBins => RowPower(A, nFrames, i))
  }

  /** Sum of the squared entries of row i. */
  function RowPower(A: Mat, nFrames: nat, i: nat): real
    requires i < |A| && |A[i]| == nFrames
  {
    Sum(RowSquares(A, nFrames, i))
  }

  /** The squared entries of row i. */
  function RowSquares(A: Mat, nFrames: nat, i: nat): (e: seq<real>)
    requires i < |A| && |A[i]| == nFrames
    ensures |e| == nFrames && forall j :: 0 <= j < nFrames ==> e[j] == A[i][j] * A[i][j]
  {
    seq(nFrames, j requires 0 <= j < nFrames => A[i][j] * A[i][j])
  }

  /** psi[n]: the floored root mean power of source n. */
  function PowerScales(c: Config, d: Dims, s: State, sqrt: real -> real): (psi: seq<real>)
    requires Valid(c, d, s) && d.bins * d.frames > 0
    ensures |psi| == d.channels
  {
    var Y := CurrentSeparated(c, d, s);
    seq(d.channels, n requires 0 <= n < d.channels => c.floor(sqrt(MeanSquare(Y[n], d.bins, d.frames))))
  }

  /** The preconditions of `NormalizeByPower` under which no division by zero occurs. */
  ghost predicate PowerNormalizable(c: Config, d: Dims, s: State, sqrt: real -> real, pow: (real, real) -> real)
  {
    && Valid(c, d, s)
    && d.bins * d.frames > 0
    && Kernels.PowPositive(pow)
    && (forall n :: 0 <= n < d.channels ==> 0.0 < PowerScales(c, d, s, sqrt)[n])
    && (s.nmf.Partitioned? ==> MatNonNegative(s.nmf.latent) && ColumnSumsPositive(s.nmf.latent, d.channels, d.bases))
  }

  /** psi[n]^p, the factor the NMF model of source n is divided by. */
  function PoweredScales(c: Config, d: Dims, s: State, sqrt: real -> real, pow: (real, real) -> real): (psiP: seq<real>)
    requires PowerNormalizable(c, d, s, sqrt, pow)
    ensures |psiP| == d.channels && forall n :: 0 <= n < d.channels ==> 0.0 < psiP[n]
    ensures forall n :: 0 <= n < d.channels ==> psiP[n] == pow(PowerScales(c, d, s, sqrt)[n], c.domain)
  {
    var psi := PowerScales(c, d, s, sqrt);
    seq(d.channels, n requires 0 <= n < d.channels => pow(psi[n], c.domain))
  }

  /** `normalize_by_power`. */
  function NormalizeByPower(c: Config, d: Dims, s: State, sqrt: real -> real, pow: (real, real) -> real): (s': State)
    requires PowerNormalizable(c, d, s, sqrt, pow)
    ensures Valid(c, d, s') && s'.input == s.input
    // the demixing filter (IP family) or the output (ISS family) is divided by psi
    ensures IsIpFamily(c.algorithm) ==>
      s'.output == s.output &&
      RowsDivided(s.demixFilter.value, s'.demixFilter.value, PowerScales(c, d, s, sqrt), d.bins, d.channels, d.channels)
    ensures !IsIpFamily(c.algorithm) ==>
      SourcesDivided(s.output, s'.output, PowerScales(c, d, s, sqrt), d.channels, d.bins, d.frames)
    // T (or Z T with partitioning) is divided by psi^p, V is kept
    ensures ModelRescaled(s.nmf, s'.nmf, PoweredScales(c, d, s, sqrt, pow), d.channels, d.bins, d.frames, d.bases)
    // with partitioning, Z stays non-negative (positive if it was) and becomes column-stochastic
    ensures s.nmf.Partitioned? ==> LatentRenormalized(s.nmf.latent, s'.nmf.latent, d.channels, d.bases)
  {
    var N, I, J, K := d.channels, d.bins, d.frames, d.bases;
    var psi := PowerScales(c, d, s, sqrt);
    var nmf := PowerNormalizedNmf(s.nmf, PoweredScales(c, d, s, sqrt, pow), N, I, J, K);
    if IsIpFamily(c.algorithm) then
      State(s.input, Some(DivideRows(s.demixFilter.value, psi, I, N, N)), s.output, nmf)
    else
      State(s.input, None, DivideSources(s.output, psi, N, I, J), nmf)
  }

  /** `normalize_by_power` keeps the NMF factors non-negative. */
  lemma NormalizeByPowerKeepsNonNegative(c: Config, d: Dims, s: State, sqrt: real -> real, pow: (real, real) -> real)
    requires PowerNormalizable(c, d, s, sqrt, pow) && NonNegative(s.nmf)
    ensures NonNegative(NormalizeByPower(c, d, s, sqrt, pow).nmf)
  {
    PowerNormalizedNmfNonNegative(s.nmf, PoweredScales(c, d, s, sqrt, pow), d.channels, d.bins, d.frames, d.bases);
  }

  lemma PowerNormalizedNmfNonNegative(m: NmfModel, psiP: seq<real>, N: nat, I: nat, J: nat, K: nat)
    requires WellShaped(m, N, I, J, K) && NonNegative(m)
    requires m.Partitioned? ==> MatNonNegative(m.latent) && ColumnSumsPositive(m.latent, N, K)
    requires |psiP| == N && forall n :: 0 <= n < N ==> 0.0 < psiP[n]
    ensures NonNegative(PowerNormalizedNmf(m, psiP, N, I, J, K))
  {
    match m
    case PerSource(T, V) =>
      DividedNonNegative(T, psiP, N, I, K);
    case Partitioned(Z, T, V) =>
      var scale := ColumnSums(ScaledLatent(Z, psiP, N, K), N, K);
      ScaledNonNegative(T, scale, I, K);
  }

  lemma DividedNonNegative(T: Tensor3, psiP: seq<real>, N: nat, I: nat, K: nat)
    requires IsTensor3(T, N, I, K) && Tensor3NonNegative(T)
    requires |psiP| == N && forall n :: 0 <= n < N ==> 0.0 < psiP[n]
    ensures Tensor3NonNegative(DivideSources(T, psiP, N, I, K))
  {
    var T' := DivideSources(T, psiP, N, I, K);
    forall n | 0 <= n < |T'|
      ensures MatNonNegative(T'[n])
    {
      forall i, k | 0 <= i < |T'[n]| && 0 <= k < |T'[n][i]|
        ensures 0.0 <= T'[n][i][k]
      {
        assert 0.0 <= T[n][i][k];
        QuotientSign(T[n][i][k], psiP[n], T'[n][i][k]);
      }
    }
  }

  lemma ScaledNonNegative(T: Mat, scale: seq<real>, I: nat, K: nat)
    requires IsMat(T, I, K) && MatNonNegative(T)
    requires |scale| == K && forall k :: 0 <= k < K ==> 0.0 <= scale[k]
    ensures MatNonNegative(ScaleColumns(T, scale, I, K))
  {
    var T' := ScaleColumns(T, scale, I, K);
    forall i, k | 0 <= i < |T'| && 0 <= k < |T'[i]|
      ensures 0.0 <= T'[i][k]
    {
      ScaledEntry(T, scale, I, K, i, k);
      assert 0.0 <= T[i][k] && 0.0 <= scale[k];
    }
  }

  /** Either way the separated signal is divided by psi: updating W (IP
      family) and updating Y (ISS family) normalise the same signal. */
  lemma NormalizeByPowerDividesSignal(c: Config, d: Dims, s: State, sqrt: real -> real, pow: (real, real) -> real)
    requires PowerNormalizable(c, d, s, sqrt, pow)
    ensures SourcesDivided(CurrentSeparated(c, d, s), CurrentSeparated(c, d, NormalizeByPower(c, d, s, sqrt, pow)),
                           PowerScales(c, d, s, sqrt), d.channels, d.bins, d.frames)
  {
    if IsIpFamily(c.algorithm) {
      SeparateDividedRows(s.input, s.demixFilter.value, PowerScales(c, d, s, sqrt), d.channels, d.channels, d.bins, d.frames);
    }
  }

  /** The NMF part of `normalize_by_power`, given psi^p per source. */
  function PowerNormalizedNmf(m: NmfModel, psiP: seq<real>, N: nat, I: nat, J: nat, K: nat): (m': NmfModel)
    requires WellShaped(m, N, I, J, K)
    requires m.Partitioned? ==> MatNonNegative(m.latent) && ColumnSumsPositive(m.latent, N, K)
    requires |psiP| == N && forall n :: 0 <= n < N ==> 0.0 < psiP[n]
    ensures WellShaped(m', N, I, J, K) && m'.Partitioned? == m.Partitioned?
    ensures ModelRescaled(m, m', psiP, N, I, J, K)
    ensures m.Partitioned? ==> LatentRenormalized(m.latent, m'.latent, N, K)
  {
    match m
    case PerSource(T, V) =>
      PerSource(DivideSources(T, psiP, N, I, K), V)
    case Partitioned(Z, T, V) =>
      var Zpsi := ScaledLatent(Z, psiP, N, K);
      var scale := ColumnSums(Zpsi, N, K);
      LatentRenormalization(Z, T, psiP, N, I, K);
      var Z' := NormalizeColumns(Zpsi, N, K);
      StochasticSumsPositive(Z', N, K);
      var T' := ScaleColumns(T, scale, I, K);
      Partitioned(Z', T', V)
  }

  /** Z' is the renormalised form of Z: non-negative, positive where Z is
      positive throughout, with positive column sums, column-stochastic. */
  predicate LatentRenormalized(Z: Mat, Z': Mat, N: nat, K: nat)
    requires IsMat(Z, N, K)
  {
    && IsMat(Z', N, K)
    && MatNonNegative(Z')
    && (MatPositive(Z) ==> MatPositive(Z'))
    && ColumnSumsPositive(Z', N, K)
    && (N > 0 ==> ColumnStochastic(Z', N, K))
  }

  /** The product Z'[n, k] T'[i, k] is Z[n, k] T[i, k] divided by psiP[n]. */
  predicate ProductRescaled(Z: Mat, T: Mat, Z': Mat, T': Mat, psiP: seq<real>, N: nat, I: nat, K: nat)
    requires IsMat(Z, N, K) && IsMat(T, I, K) && IsMat(Z', N, K) && IsMat(T', I, K) && |psiP| == N && NonZero(psiP)
  {
    forall n, i, k :: 0 <= n < N && 0 <= i < I && 0 <= k < K ==>
      Z'[n][k] * T'[i][k] == Z[n][k] * T[i][k] / psiP[n]
  }

  /** `Z / psi[:, newaxis] ** p`. */
  function ScaledLatent(Z: Mat, psiP: seq<real>, nSources: nat, nBasis: nat): (Zpsi: Mat)
    requires IsMat(Z, nSources, nBasis) && MatNonNegative(Z) && ColumnSumsPositive(Z, nSources, nBasis)
    requires |psiP| == nSources && forall n :: 0 <= n < nSources ==> 0.0 < psiP[n]
    ensures IsMat(Zpsi, nSources, nBasis) && MatNonNegative(Zpsi)
    ensures MatPositive(Z) ==> MatPositive(Zpsi)
    ensures ColumnSumsPositive(Zpsi, nSources, nBasis)
    ensures forall n, k :: 0 <= n < nSources && 0 <= k < nBasis ==> Zpsi[n][k] == Z[n][k] / psiP[n]
  {
    var Zpsi := seq(nSources, n requires 0 <= n < nSources =>
                  seq(nBasis, k requires 0 <= k < nBasis => Z[n][k] / psiP[n]));
    assert MatNonNegative(Zpsi) by {
      forall n, k | 0 <= n < |Zpsi| && 0 <= k < |Zpsi[n]|
        ensures 0.0 <= Zpsi[n][k]
      {
        QuotientSign(Z[n][k], psiP[n], Zpsi[n][k]);
      }
    }
    assert MatPositive(Z) ==> MatPositive(Zpsi) by {
      forall n, k | 0 <= n < |Zpsi| && 0 <= k < |Zpsi[n]| && MatPositive(Z)
        ensures 0.0 < Zpsi[n][k]
      {
        assert 0.0 < Z[n][k];
        QuotientSign(Z[n][k], psiP[n], Zpsi[n][k]);
      }
    }
    assert ColumnSumsPositive(Zpsi, nSources, nBasis) by {
      if nSources > 0 {
        forall k | 0 <= k < nBasis
          ensures 0.0 < ColumnSum(Zpsi, nSources, k)
        {
          ScaledColumnPositive(Z, Zpsi, psiP, nSources, nBasis, k);
        }
      }
    }
    Zpsi
  }

  /** A column with a positive sum keeps a positive sum when each source is
      divided by its own positive factor. */
  lemma ScaledColumnPositive(Z: Mat, Zpsi: Mat, psiP: seq<real>, nSources: nat, nBasis: nat, k: nat)
    requires IsMat(Z, nSources, nBasis) && IsMat(Zpsi, nSources, nBasis) && MatNonNegative(Z) && MatNonNegative(Zpsi)
    requires |psiP| == nSources && forall n :: 0 <= n < nSources ==> 0.0 < psiP[n]
    requires k < nBasis && 0.0 < ColumnSum(Z, nSources, k)
    requires forall n :: 0 <= n < nSources ==> Zpsi[n][k] == Z[n][k] / psiP[n]
    ensures 0.0 < ColumnSum(Zpsi, nSources, k)
  {
    var col := seq(nSources, n requires 0 <= n < nSources => Z[n][k]);
    var col' := seq(nSources, n requires 0 <= n < nSources => Zpsi[n][k]);
    var n := PositiveTerm(col);
    QuotientSign(Z[n][k], psiP[n], Zpsi[n][k]);
    assert AllNonNegative(col');
    SumPositive(col', n);
  }

  /** The partitioned branch of the power normalisation moves the column
      sums of Z / psi^p into T, so the product Z T is divided by psi^p. */
  lemma LatentRenormalization(Z: Mat, T: Mat, psiP: seq<real>, nSources: nat, nBins: nat, nBasis: nat)
    requires IsMat(Z, nSources, nBasis) && MatNonNegative(Z) && ColumnSumsPositive(Z, nSources, nBasis)
    requires IsMat(T, nBins, nBasis)
    requires |psiP| == nSources && forall n :: 0 <= n < nSources ==> 0.0 < psiP[n]
    ensures var Zpsi := ScaledLatent(Z, psiP, nSources, nBasis);
      var scale := ColumnSums(Zpsi, nSources, nBasis);
      ProductRescaled(Z, T, NormalizeColumns(Zpsi, nSources, nBasis), ScaleColumns(T, scale, nBins, nBasis), psiP, nSources, nBins, nBasis)
  {
    var Zpsi := ScaledLatent(Z, psiP, nSources, nBasis);
    var scale := ColumnSums(Zpsi, nSources, nBasis);
    var Z' := NormalizeColumns(Zpsi, nSources, nBasis);
    var T' := ScaleColumns(T, scale, nBins, nBasis);
    assert ProductRescaled(Z, T, Z', T', psiP, nSources, nBins, nBasis) by {
      forall n, i, k | 0 <= n < nSources && 0 <= i < nBins && 0 <= k < nBasis
        ensures Z'[n][k] * T'[i][k] == Z[n][k] * T[i][k] / psiP[n]
      {
        ScaledEntry(T, scale, nBins, nBasis, i, k);
        MovedScale(Z'[n][k], T'[i][k], Zpsi[n][k], Z[n][k], T[i][k], scale[k], psiP[n]);
      }
    }
  }

  /** m' is m with the model of source n divided by psiP[n]: T (or the
      product Z T with partitioning) divided, V unchanged. */
  predicate ModelRescaled(m: NmfModel, m': NmfModel, psiP: seq<real>, N: nat, I: nat, J: nat, K: nat)
    requires WellShaped(m, N, I, J, K) && WellShaped(m', N, I, J, K)
    requires |psiP| == N && NonZero(psiP)
  {
    match m
    case PerSource(T, V) =>
      m'.PerSource? && m'.activation == V && SourcesDivided(T, m'.basis, psiP, N, I, K)
    case Partitioned(Z, T, V) =>
      m'.Partitioned? && m'.sharedActivation == V && ProductRescaled(Z, T, m'.latent, m'.sharedBasis, psiP, N, I, K)
  }

  lemma RescaledTerm(m: NmfModel, m': NmfModel, psiP: seq<real>, N: nat, I: nat, J: nat, K: nat, n: nat, i: nat, j: nat, k: nat)
    requires WellShaped(m, N, I, J, K) && WellShaped(m', N, I, J, K)
    requires |psiP| == N && NonZero(psiP)
    requires ModelRescaled(m, m', psiP, N, I, J, K)
    requires n < N && i < I && j < J && k < K
    ensures Terms(m', N, I, J, K, n, i, j)[k] == Terms(m, N, I, J, K, n, i, j)[k] / psiP[n]
  {
    var q := psiP[n];
    match m
    case PerSource(T, V) =>
      QuotientProduct(T[n][i][k], V[n][k][j], q, m'.basis[n][i][k]);
    case Partitioned(Z, T, V) =>
      TripleQuotient(Z[n][k], T[i][k], m'.latent[n][k] * m'.sharedBasis[i][k], V[k][j], q);
  }

  lemma RescaledEntry(m: NmfModel, m': NmfModel, psiP: seq<real>, N: nat, I: nat, J: nat, K: nat, n: nat, i: nat, j: nat)
    requires WellShaped(m, N, I, J, K) && WellShaped(m', N, I, J, K)
    requires |psiP| == N && NonZero(psiP)
    requires ModelRescaled(m, m', psiP, N, I, J, K)
    requires n < N && i < I && j < J
    ensures Reconstruct(m', N, I, J, K)[n][i][j] == Reconstruct(m, N, I, J, K)[n][i][j] / psiP[n]
  {
    RescaledTerms(m, m', psiP, N, I, J, K, n, i, j);
    ReconstructEntry(m, N, I, J, K, n, i, j);
    ReconstructEntry(m', N, I, J, K, n, i, j);
  }

  /** Entry (n, i, j) of a reconstruction is the sum of its terms. */
  lemma ReconstructEntry(m: NmfModel, N: nat, I: nat, J: nat, K: nat, n: nat, i: nat, j: nat)
    requires WellShaped(m, N, I, J, K)
    requires n < N && i < I && j < J
    ensures Reconstruct(m, N, I, J, K)[n][i][j] == Sum(Terms(m, N, I, J, K, n, i, j))
  {
  }

  lemma RescaledTerms(m: NmfModel, m': NmfModel, psiP: seq<real>, N: nat, I: nat, J: nat, K: nat, n: nat, i: nat, j: nat)
    requires WellShaped(m, N, I, J, K) && WellShaped(m', N, I, J, K)
    requires |psiP| == N && NonZero(psiP)
    requires ModelRescaled(m, m', psiP, N, I, J, K)
    requires n < N && i < I && j < J
    ensures Sum(Terms(m', N, I, J, K, n, i, j)) == Sum(Terms(m, N, I, J, K, n, i, j)) / psiP[n]
  {
    var t := Terms(m, N, I, J, K, n, i, j);
    var t' := Terms(m', N, I, J, K, n, i, j);
    forall k | 0 <= k < K
      ensures t'[k] == t[k] / psiP[n]
    {
      RescaledTerm(m, m', psiP, N, I, J, K, n, i, j, k);
    }
    SumDivide(t, t', psiP[n]);
  }

  /** A model rescaled per source reconstructs the old power spectrogram
      divided per source. */
  lemma RescaledReconstruction(m: NmfModel, m': NmfModel, psiP: seq<real>, N: nat, I: nat, J: nat, K: nat)
    requires WellShaped(m, N, I, J, K) && WellShaped(m', N, I, J, K)
    requires |psiP| == N && NonZero(psiP)
    requires ModelRescaled(m, m', psiP, N, I, J, K)
    ensures SourcesDivided(Reconstruct(m, N, I, J, K), Reconstruct(m', N, I, J, K), psiP, N, I, J)
  {
    forall n, i, j | 0 <= n < N && 0 <= i < I && 0 <= j < J
      ensures Reconstruct(m', N, I, J, K)[n][i][j] == Reconstruct(m, N, I, J, K)[n][i][j] / psiP[n]
    {
      RescaledEntry(m, m', psiP, N, I, J, K, n, i, j);
    }
  }

  /** After the power normalisation the NMF model of source n is the old one
      divided by psi[n]^p, matching the rescaled signal. */
  lemma NormalizeByPowerRescalesModel(c: Config, d: Dims, s: State, sqrt: real -> real, pow: (real, real) -> real)
    requires PowerNormalizable(c, d, s, sqrt, pow)
    ensures var s' := NormalizeByPower(c, d, s, sqrt, pow);
      SourcesDivided(Reconstruct(s.nmf, d.channels, d.bins, d.frames, d.bases),
                     Reconstruct(s'.nmf, d.channels, d.bins, d.frames, d.bases),
                     PoweredScales(c, d, s, sqrt, pow), d.channels, d.bins, d.frames)
  {
    RescaledReconstruction(s.nmf, NormalizeByPower(c, d, s, sqrt, pow).nmf, PoweredScales(c, d, s, sqrt, pow),
                           d.channels, d.bins, d.frames, d.bases);
  }

  lemma MeanSquareNonNegative(A: Mat, nBins: nat, nFrames: nat)
    requires IsMat(A, nBins, nFrames) && nBins * nFrames > 0
    ensures 0.0 <= MeanSquare(A, nBins, nFrames)
  {
    var rows := RowPowers(A, nBins, nFrames);
    forall i | 0 <= i < nBins
      ensures 0.0 <= rows[i]
    {
      SquaresNonNegative(A[i]);
      assert RowSquares(A, nFrames, i) == Products(A[i], A[i]);
      SumNonNegative(RowSquares(A, nFrames, i));
    }
    SumNonNegative(rows);
  }

  /** Dividing a row by psi divides each of its squares by psi squared. */
  lemma RowSquaresDivided(A: Mat, A': Mat, psi: real, nFrames: nat, i: nat)
    requires i < |A| && |A[i]| == nFrames && i < |A'| && |A'[i]| == nFrames
    requires psi != 0.0
    requires forall j :: 0 <= j < nFrames ==> A'[i][j] == A[i][j] / psi
    ensures forall j :: 0 <= j < nFrames ==> RowSquares(A, nFrames, i)[j] == (psi * psi) * RowSquares(A', nFrames, i)[j]
  {
    forall j | 0 <= j < nFrames
      ensures RowSquares(A, nFrames, i)[j] == (psi * psi) * RowSquares(A', nFrames, i)[j]
    {
      SquareOfQuotient(A[i][j], A'[i][j], psi);
    }
  }

  lemma RowPowerDivided(A: Mat, A': Mat, psi: real, nFrames: nat, i: nat)
    requires i < |A| && |A[i]| == nFrames && i < |A'| && |A'[i]| == nFrames
    requires psi != 0.0
    requires forall j :: 0 <= j < nFrames ==> A'[i][j] == A[i][j] / psi
    ensures RowPower(A, nFrames, i) == (psi * psi) * RowPower(A', nFrames, i)
  {
    RowSquaresDivided(A, A', psi, nFrames, i);
    SumScale(RowSquares(A', nFrames, i), RowSquares(A, nFrames, i), psi * psi);
  }

  /** Scaling the power of every row by c scales the mean power by c. */
  lemma MeanSquareScaled(A: Mat, A': Mat, c: real, nBins: nat, nFrames: nat)
    requires IsMat(A, nBins, nFrames) && IsMat(A', nBins, nFrames) && nBins * nFrames > 0
    requires forall i :: 0 <= i < nBins ==> RowPower(A, nFrames, i) == c * RowPower(A', nFrames, i)
    ensures MeanSquare(A, nBins, nFrames) == c * MeanSquare(A', nBins, nFrames)
  {
    var rows, rows' := RowPowers(A, nBins, nFrames), RowPowers(A', nBins, nFrames);
    SumScale(rows', rows, c);
    ScaledQuotients(MeanSquare(A, nBins, nFrames), MeanSquare(A', nBins, nFrames), Sum(rows), Sum(rows'), c,
                    (nBins * nFrames) as real);
  }

  /** Dividing every entry by psi divides the mean power by psi squared. */
  lemma MeanSquareDivided(A: Mat, A': Mat, psi: real, nBins: nat, nFrames: nat)
    requires IsMat(A, nBins, nFrames) && IsMat(A', nBins, nFrames) && nBins * nFrames > 0
    requires psi != 0.0
    requires forall i, j :: 0 <= i < nBins && 0 <= j < nFrames ==> A'[i][j] == A[i][j] / psi
    ensures MeanSquare(A, nBins, nFrames) == (psi * psi) * MeanSquare(A', nBins, nFrames)
  {
    forall i | 0 <= i < nBins
      ensures RowPower(A, nFrames, i) == (psi * psi) * RowPower(A', nFrames, i)
    {
      RowPowerDivided(A, A', psi, nFrames, i);
    }
    MeanSquareScaled(A, A', psi * psi, nBins, nFrames);
  }

  /** The purpose of the power normalisation: with the identity as flooring
      and an exact square root, every source has unit mean power afterwards. */
  lemma NormalizeByPowerGivesUnitPower(c: Config, d: Dims, s: State, sqrt: real -> real, pow: (real, real) -> real, n: nat)
    requires PowerNormalizable(c, d, s, sqrt, pow)
    requires Kernels.IsIdentity(c.floor) && Kernels.IsSqrt(sqrt)
    requires n < d.channels
    ensures var s' := NormalizeByPower(c, d, s, sqrt, pow);
      MeanSquare(CurrentSeparated(c, d, s')[n], d.bins, d.frames) == 1.0
  {
    var I, J := d.bins, d.frames;
    var s' := NormalizeByPower(c, d, s, sqrt, pow);
    var Y := CurrentSeparated(c, d, s);
    var Y' := CurrentSeparated(c, d, s');
    var psi := PowerScales(c, d, s, sqrt);
    NormalizeByPowerDividesSignal(c, d, s, sqrt, pow);
    assert forall i, j :: 0 <= i < I && 0 <= j < J ==> Y'[n][i][j] == Y[n][i][j] / psi[n];
    var ms := MeanSquare(Y[n], I, J);
    MeanSquareNonNegative(Y[n], I, J);
    assert psi[n] == sqrt(ms);
    UnitPowerAfterDivision(Y[n], Y'[n], psi[n], I, J);
  }

  /** Dividing by the root mean power leaves unit mean power. */
  lemma UnitPowerAfterDivision(A: Mat, A': Mat, psi: real, nBins: nat, nFrames: nat)
    requires IsMat(A, nBins, nFrames) && IsMat(A', nBins, nFrames) && nBins * nFrames > 0
    requires 0.0 < psi && psi * psi == MeanSquare(A, nBins, nFrames)
    requires forall i, j :: 0 <= i < nBins && 0 <= j < nFrames ==> A'[i][j] == A[i][j] / psi
    ensures MeanSquare(A', nBins, nFrames) == 1.0
  {
    var ms, ms' := MeanSquare(A, nBins, nFrames), MeanSquare(A', nBins, nFrames);
    PositiveSquare(psi, ms);
    MeanSquareDivided(A, A', psi, nBins, nFrames);
    UnitFactor(MeanSquare(A', nBins, nFrames), MeanSquare(A, nBins, nFrames), psi * psi);
  }

  // ------------------------------------------------------------------ call

  /** What `__call__` returns from its final state: `separate(input, W)`
      for the IP family, the directly updated output for the ISS family. */
  function Output(c: Config, d: Dims, s: State): (Y: Tensor3)
    requires Valid(c, d, s)
    ensures IsTensor3(Y, d.channels, d.bins, d.frames)
    ensures IsIpFamily(c.algorithm) ==> Y == Separate(s.input, s.demixFilter.value, d.channels, d.channels, d.bins, d.frames)
    ensures !IsIpFamily(c.algorithm) ==> Y == s.output
  {
    CurrentSeparated(c, d, s)
  }

  /** The end of `__call__` after the iterations: scale restoration when it
      is requested (projection back, which is a parameter here), then the output. */
  function FinishCall(c: Config, d: Dims, s: State, projectionBack: State -> State): (r: Result<Tensor3>)
    requires Valid(c, d, s)
    requires forall t :: Valid(c, d, t) ==> Valid(c, d, projectionBack(t))
    ensures r.Ok? <==> !Truthy(c.scaleRestoration) || ScaleRestorationDispatch(c.scaleRestoration).Ok?
    ensures r.Err? ==> r.error == ScaleRestorationNotSupported(c.scaleRestoration.name)
    // the output has the shape of the mixture
    ensures r.Ok? ==> IsTensor3(r.value, d.channels, d.bins, d.frames)
    ensures r.Ok? && Truthy(c.scaleRestoration) ==> r.value == Output(c, d, projectionBack(s))
    ensures r.Ok? && !Truthy(c.scaleRestoration) ==> r.value == Output(c, d, s)
  {
    if Truthy(c.scaleRestoration) then
      var _ :- ScaleRestorationDispatch(c.scaleRestoration);
      Ok(Output(c, d, projectionBack(s)))
    else
      Ok(Output(c, d, s))
  }
}
