/** Base class of the complex angular central Gaussian mixture model
    (cACGMM): resetting with an input, the unit-norm observation vectors and
    the initial model parameters. The updates live in subclasses; the base
    class's `__call__`, `separate` and `compute_loss` only raise.

    Shapes: input X (C, I, J); mixing weights (N, I); covariances
    (N, I, C, C); posterior (N, I, J). The uniform draws of
    `rng.random((N, I, J))` are an input.
 */
module Cacgmm {
  import opened Errors
  import opened Tensors
  import Kernels

  /** `n_sources`, or the channel count when it is None. */
  function SourceCount(given: Option<nat>, nChannels: nat): (n: nat)
    ensures given.Some? ==> n == given.value
    ensures given.None? ==> n == nChannels
  {
    match given
    case Some(n) => n
    case None => nChannels
  }

  /** The channel vector X[:, i, j] at one time-frequency point. */
  function Observation(X: Tensor3, C: nat, I: nat, J: nat, i: nat, j: nat): (x: seq<real>)
    requires IsTensor3(X, C, I, J) && i < I && j < J
    ensures |x| == C && forall c :: 0 <= c < C ==> x[c] == X[c][i][j]
  {
    seq(C, c requires 0 <= c < C => X[c][i][j])
  }

  /** `np.linalg.norm(X, axis=0)` at (i, j). */
  function ChannelNorm(X: Tensor3, sqrt: real -> real, C: nat, I: nat, J: nat, i: nat, j: nat): real
    requires IsTensor3(X, C, I, J) && i < I && j < J
  {
    var x := Observation(X, C, I, J, i, j);
    sqrt(Dot(x, x))
  }

  /** No observation vector is zero. */
  predicate NormsNonZero(X: Tensor3, sqrt: real -> real, C: nat, I: nat, J: nat)
    requires IsTensor3(X, C, I, J)
  {
    forall i, j :: 0 <= i < I && 0 <= j < J ==> ChannelNorm(X, sqrt, C, I, J, i, j) != 0.0
  }

  /** `unit_input = X / norm`: each observation divided by its norm. */
  function UnitInput(X: Tensor3, sqrt: real -> real, C: nat, I: nat, J: nat): (Z: Tensor3)
    requires IsTensor3(X, C, I, J) && NormsNonZero(X, sqrt, C, I, J)
    ensures IsTensor3(Z, C, I, J)
    ensures forall c, i, j :: 0 <= c < C && 0 <= i < I && 0 <= j < J ==>
      ChannelNorm(X, sqrt, C, I, J, i, j) * Z[c][i][j] == X[c][i][j]
  {
    seq(C, c requires 0 <= c < C =>
      seq(I, i requires 0 <= i < I =>
        seq(J, j requires 0 <= j < J => X[c][i][j] / ChannelNorm(X, sqrt, C, I, J, i, j))))
  }

  /** With an exact square root, every unit observation has norm one. */
  lemma UnitInputHasUnitNorm(X: Tensor3, sqrt: real -> real, C: nat, I: nat, J: nat, i: nat, j: nat)
    requires IsTensor3(X, C, I, J) && NormsNonZero(X, sqrt, C, I, J)
    requires Kernels.IsSqrt(sqrt)
    requires i < I && j < J
    ensures var z := Observation(UnitInput(X, sqrt, C, I, J), C, I, J, i, j);
      Dot(z, z) == 1.0
  {
    var Z := UnitInput(X, sqrt, C, I, J);
    var x := Observation(X, C, I, J, i, j);
    var z := Observation(Z, C, I, J, i, j);
    var r := ChannelNorm(X, sqrt, C, I, J, i, j);
    SquaresNonNegative(x);
    assert 0.0 < r && r * r == Dot(x, x);
    UnitAfterDivision(x, z, r);
  }

  /** The C x C identity matrix. */
  function Identity(C: nat): (E: Mat)
    ensures IsMat(E, C, C)
    ensures forall a, b :: 0 <= a < C && 0 <= b < C ==> E[a][b] == (if a == b then 1.0 else 0.0)
  {
    seq(C, a requires 0 <= a < C => seq(C, b requires 0 <= b < C => if a == b then 1.0 else 0.0))
  }

  /** Matrix-vector product. */
  function Apply(A: Mat, v: seq<real>, C: nat): (w: seq<real>)
    requires IsMat(A, C, C) && |v| == C
    ensures |w| == C && forall a :: 0 <= a < C ==> w[a] == Dot(A[a], v)
  {
    seq(C, a requires 0 <= a < C => Dot(A[a], v))
  }

  /** The identity covariance leaves every vector as it is. */
  lemma IdentityApply(v: seq<real>, C: nat)
    requires |v| == C
    ensures Apply(Identity(C), v, C) == v
  {
    var E := Identity(C);
    forall a | 0 <= a < C
      ensures Dot(E[a], v) == v[a]
    {
      SumSingleTerm(Products(E[a], v), a);
    }
  }

  /** `rng.random(...)` draws lie in [0, 1). */
  predicate UniformDraws(gamma: Tensor3, N: nat, I: nat, J: nat)
  {
    && IsTensor3(gamma, N, I, J)
    && forall n, i, j :: 0 <= n < N && 0 <= i < I && 0 <= j < J ==> 0.0 <= gamma[n][i][j] < 1.0
  }

  /** The draws for all sources at (i, j). */
  function SourceDraws(gamma: Tensor3, N: nat, I: nat, J: nat, i: nat, j: nat): (g: seq<real>)
    requires IsTensor3(gamma, N, I, J) && i < I && j < J
    ensures |g| == N && forall n :: 0 <= n < N ==> g[n] == gamma[n][i][j]
  {
    seq(N, n requires 0 <= n < N => gamma[n][i][j])
  }

  /** `gamma.sum(axis=0)` is non-zero wherever it is divided by. */
  predicate DrawSumsNonZero(gamma: Tensor3, N: nat, I: nat, J: nat)
    requires IsTensor3(gamma, N, I, J)
  {
    forall i, j :: 0 <= i < I && 0 <= j < J && 0 < N ==> Sum(SourceDraws(gamma, N, I, J, i, j)) != 0.0
  }

  datatype Params = Params(mixing: Mat, covariance: seq<seq<Mat>>, posterior: Tensor3)

  /** Every source has weight 1/N in every bin. */
  predicate UniformWeights(m: Mat, N: nat, I: nat)
  {
    IsMat(m, N, I) && forall n, i :: 0 <= n < N && 0 <= i < I ==> m[n][i] * (N as real) == 1.0
  }

  /** Every source and bin has the identity covariance. */
  predicate IdentityEverywhere(cov: seq<seq<Mat>>, N: nat, I: nat, C: nat)
  {
    && |cov| == N
    && (forall n :: 0 <= n < N ==> |cov[n]| == I)
    && forall n, i :: 0 <= n < N && 0 <= i < I ==> cov[n][i] == Identity(C)
  }

  /** Each entry of `post` times the sum of the draws over sources is the draw. */
  predicate NormalizesDraws(post: Tensor3, gamma: Tensor3, N: nat, I: nat, J: nat)
    requires IsTensor3(gamma, N, I, J)
  {
    IsTensor3(post, N, I, J) && forall n, i, j :: 0 <= n < N && 0 <= i < I && 0 <= j < J ==>
      post[n][i][j] * Sum(SourceDraws(gamma, N, I, J, i, j)) == gamma[n][i][j]
  }

  /** `_init_parameters`: uniform mixing weights, identity covariances and
      the draws normalised over sources. */
  function InitParameters(gamma: Tensor3, N: nat, C: nat, I: nat, J: nat): (p: Params)
    requires UniformDraws(gamma, N, I, J) && DrawSumsNonZero(gamma, N, I, J)
    ensures UniformWeights(p.mixing, N, I)
    ensures IdentityEverywhere(p.covariance, N, I, C)
    ensures NormalizesDraws(p.posterior, gamma, N, I, J)
  {
    Params(UniformMixing(N, I), IdentityCovariances(N, I, C), NormalizedDraws(gamma, N, I, J))
  }

  /** `np.ones((N, I)) / N`. */
  function UniformMixing(N: nat, I: nat): (m: Mat)
    ensures UniformWeights(m, N, I)
  {
    if N == 0 then []
    else
      var w := Share(1.0, N as real);
      seq(N, n requires 0 <= n < N => seq(I, i requires 0 <= i < I => w))
  }

  /** An identity covariance for every source and bin. */
  function IdentityCovariances(N: nat, I: nat, C: nat): (cov: seq<seq<Mat>>)
    ensures IdentityEverywhere(cov, N, I, C)
  {
    seq(N, n requires 0 <= n < N => seq(I, i requires 0 <= i < I => Identity(C)))
  }

  /** `gamma / gamma.sum(axis=0)`. */
  function NormalizedDraws(gamma: Tensor3, N: nat, I: nat, J: nat): (post: Tensor3)
    requires UniformDraws(gamma, N, I, J) && DrawSumsNonZero(gamma, N, I, J)
    ensures NormalizesDraws(post, gamma, N, I, J)
  {
    seq(N, n requires 0 <= n < N =>
      seq(I, i requires 0 <= i < I =>
        seq(J, j requires 0 <= j < J => Share(gamma[n][i][j], Sum(SourceDraws(gamma, N, I, J, i, j))))))
  }

  /** `x / total`: the share whose multiple by the total gives back x. */
  function Share(x: real, total: real): (q: real)
    requires total != 0.0
    ensures q * total == x
  {
    DivCancel(x, total);
    x / total
  }

  lemma {:induction false} SumConstant(s: seq<real>, c: real)
    requires forall k :: 0 <= k < |s| ==> s[k] == c
    ensures Sum(s) == (|s| as real) * c
  {
    if |s| > 0 {
      SumConstant(s[1..], c);
    }
  }

  /** The mixing weights of every bin sum to one over the sources. */
  lemma MixingSumsToOne(gamma: Tensor3, N: nat, C: nat, I: nat, J: nat, i: nat)
    requires UniformDraws(gamma, N, I, J) && DrawSumsNonZero(gamma, N, I, J)
    requires 0 < N && i < I
    ensures var p := InitParameters(gamma, N, C, I, J);
      Sum(seq(N, n requires 0 <= n < N => p.mixing[n][i])) == 1.0
  {
    var p := InitParameters(gamma, N, C, I, J);
    var w := seq(N, n requires 0 <= n < N => p.mixing[n][i]);
    SumConstant(w, 1.0 / (N as real));
    DivCancel(1.0, N as real);
  }

  lemma ShareQuotient(q: real, x: real, total: real)
    requires total != 0.0 && q * total == x
    ensures q == x / total
  {
  }

  lemma PostBounds(q: real, x: real, total: real)
    requires 0.0 <= x <= total && 0.0 < total && q * total == x
    ensures 0.0 <= q <= 1.0
  {
    assert q == x / total;
  }

  /** One share of a non-negative weight in the positive total of all weights lies in [0, 1]. */
  lemma ShareBounds(g: seq<real>, post: seq<real>, total: real, n: nat)
    requires SharesOf(post, g, total) && AllNonNegative(g) && total == Sum(g) && 0.0 < total
    requires n < |g|
    ensures 0.0 <= post[n] <= 1.0
  {
    var q, x := post[n], g[n];
    assert 0.0 <= x <= total by {
      SumBoundsTerm(g, n);
    }
    assert q * total == x;
    PostBounds(q, x, total);
  }

  /** `post` holds the shares of `g` in `total`: each times the total gives back its weight. */
  predicate SharesOf(post: seq<real>, g: seq<real>, total: real)
  {
    |post| == |g| && forall n :: 0 <= n < |g| ==> post[n] * total == g[n]
  }

  /** Normalising non-negative weights by their positive total gives a
      distribution: entries in [0, 1] that sum to one. */
  lemma NormalizedIsDistribution(g: seq<real>, post: seq<real>, total: real)
    requires SharesOf(post, g, total) && AllNonNegative(g) && total == Sum(g) && 0.0 < total
    ensures Sum(post) == 1.0
    ensures forall n :: 0 <= n < |g| ==> 0.0 <= post[n] <= 1.0
  {
    NormalizedSumsToOne(g, post, total);
    forall n | 0 <= n < |g|
      ensures 0.0 <= post[n] <= 1.0
    {
      ShareBounds(g, post, total, n);
    }
  }

  lemma NormalizedSumsToOne(g: seq<real>, post: seq<real>, total: real)
    requires SharesOf(post, g, total) && total == Sum(g) && total != 0.0
    ensures Sum(post) == 1.0
  {
    forall n | 0 <= n < |g|
      ensures post[n] == g[n] / total
    {
      ShareQuotient(post[n], g[n], total);
    }
    SumDivide(g, post, total);
    SelfQuotient(total);
  }

  /** The initial posterior is a distribution over sources at every
      time-frequency point. */
  lemma PosteriorIsDistribution(gamma: Tensor3, N: nat, C: nat, I: nat, J: nat, i: nat, j: nat)
    requires UniformDraws(gamma, N, I, J) && DrawSumsNonZero(gamma, N, I, J)
    requires 0 < N && i < I && j < J
    ensures var p := InitParameters(gamma, N, C, I, J);
      var post := SourceDraws(p.posterior, N, I, J, i, j);
      Sum(post) == 1.0 && forall n :: 0 <= n < N ==> 0.0 <= post[n] <= 1.0
  {
    var p := InitParameters(gamma, N, C, I, J);
    var post := SourceDraws(p.posterior, N, I, J, i, j);
    var g := SourceDraws(gamma, N, I, J, i, j);
    assert AllNonNegative(g);
    SumNonNegative(g);
    assert Sum(g) != 0.0;
    DrawShares(p.posterior, gamma, N, I, J, i, j);
    NormalizedIsDistribution(g, post, Sum(g));
  }

  /** At one bin and frame, each normalised draw times the sum over sources gives back the draw. */
  lemma DrawShares(post: Tensor3, gamma: Tensor3, N: nat, I: nat, J: nat, i: nat, j: nat)
    requires IsTensor3(gamma, N, I, J) && NormalizesDraws(post, gamma, N, I, J)
    requires i < I && j < J
    ensures var g := SourceDraws(gamma, N, I, J, i, j);
      SharesOf(SourceDraws(post, N, I, J, i, j), g, Sum(g))
  {
  }

  /** Dimensions and parameters after `_reset`. */
  datatype State = State(
    input: Tensor3,
    unitInput: Tensor3,
    nSources: nat,
    nChannels: nat,
    nBins: nat,
    nFrames: nat,
    params: Params)

  /** `_reset`: fails without an input, otherwise sets the unit input, the
      dimensions (the channel count standing in for a missing source count)
      and the initial parameters from the draws. `nSources` is the attribute
      after the keyword arguments were applied. */
  function Reset(input: Option<Tensor3>, nSources: Option<nat>, sqrt: real -> real, gamma: Tensor3,
                 C: nat, I: nat, J: nat): (r: Result<State>)
    requires input.Some? ==> IsTensor3(input.value, C, I, J) && NormsNonZero(input.value, sqrt, C, I, J)
    requires UniformDraws(gamma, SourceCount(nSources, C), I, J)
    requires DrawSumsNonZero(gamma, SourceCount(nSources, C), I, J)
    ensures r.Err? <==> input.None?
    ensures r.Err? ==> r.error == NoInput && Kind(r.error) == AssertionError
    ensures r.Ok? ==>
      && r.value.input == input.value
      && r.value.unitInput == UnitInput(input.value, sqrt, C, I, J)
      && r.value.nChannels == C && r.value.nBins == I && r.value.nFrames == J
      && (nSources.None? ==> r.value.nSources == C)
      && (nSources.Some? ==> r.value.nSources == nSources.value)
      && r.value.params == InitParameters(gamma, r.value.nSources, C, I, J)
  {
    match input
    case None => Err(NoInput)
    case Some(X) =>
      var N := SourceCount(nSources, C);
      Ok(State(X, UnitInput(X, sqrt, C, I, J), N, C, I, J, InitParameters(gamma, N, C, I, J)))
  }

  /** `__call__` of the base class: after a successful reset it raises. */
  function Call(input: Tensor3, nSources: Option<nat>, sqrt: real -> real, gamma: Tensor3,
                C: nat, I: nat, J: nat): (r: Result<Tensor3>)
    requires IsTensor3(input, C, I, J) && NormsNonZero(input, sqrt, C, I, J)
    requires UniformDraws(gamma, SourceCount(nSources, C), I, J)
    requires DrawSumsNonZero(gamma, SourceCount(nSources, C), I, J)
    ensures r == Err(MethodNotImplemented("__call__")) && Kind(r.error) == NotImplementedError
  {
    match Reset(Some(input), nSources, sqrt, gamma, C, I, J)
    case Err(e) => Err(e)
    case Ok(_) => Err(MethodNotImplemented("__call__"))
  }

  /** `separate` of the base class. */
  function Separate(input: Tensor3): (r: Result<Tensor3>)
    ensures r == Err(MethodNotImplemented("separate")) && Kind(r.error) == NotImplementedError
  {
    Err(MethodNotImplemented("separate"))
  }

  /** `compute_loss` of the base class. */
  function ComputeLoss(s: State): (r: Result<real>)
    ensures r == Err(MethodNotImplemented("compute_loss")) && Kind(r.error) == NotImplementedError
  {
    Err(MethodNotImplemented("compute_loss"))
  }
}
