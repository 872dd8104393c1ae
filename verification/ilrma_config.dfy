/** Construction of the three ILRMA variants (Gaussian, Student's t,
    generalised Gaussian) and the dispatch of their string- or bool-valued
    options: spatial algorithm, normalisation and scale restoration.
 */
module IlrmaConfig {
  import opened Errors
  import Kernels

  datatype SpatialAlgorithm = IP | IP1 | IP2 | ISS | ISS1 | ISS2

  /** The names the constructors accept, in the library's order. */
  const SpatialAlgorithmNames: seq<string> := ["IP", "IP1", "IP2", "ISS", "ISS1", "ISS2"]

  function Name(a: SpatialAlgorithm): string
  {
    match a
    case IP => "IP"
    case IP1 => "IP1"
    case IP2 => "IP2"
    case ISS => "ISS"
    case ISS1 => "ISS1"
    case ISS2 => "ISS2"
  }

  /** Reads a spatial algorithm name; `None` for a name the library rejects. */
  function ParseSpatialAlgorithm(s: string): (r: Option<SpatialAlgorithm>)
    ensures r.Some? <==> s in SpatialAlgorithmNames
  {
    if s == "IP" then Some(IP)
    else if s == "IP1" then Some(IP1)
    else if s == "IP2" then Some(IP2)
    else if s == "ISS" then Some(ISS)
    else if s == "ISS1" then Some(ISS1)
    else if s == "ISS2" then Some(ISS2)
    else None
  }

  /** Parsing and naming are inverse to each other. */
  lemma ParseNameRoundTrip(a: SpatialAlgorithm, s: string)
    ensures ParseSpatialAlgorithm(Name(a)) == Some(a)
    ensures ParseSpatialAlgorithm(s) == Some(a) <==> s == Name(a)
  {
  }

  /** The algorithms that maintain a demixing filter W (the others update Y directly). */
  predicate IsIpFamily(a: SpatialAlgorithm)
  {
    a == IP || a == IP1 || a == IP2
  }

  datatype Distribution =
    | Gauss
    | StudentT(dof: real)
    | GeneralizedGaussian(beta: real)

  /** An option Python accepts as None, a bool or a string. */
  datatype Setting = Unset | Flag(on: bool) | Named(name: string)

  /** Python truthiness of the option. */
  predicate Truthy(s: Setting)
  {
    match s
    case Unset => false
    case Flag(b) => b
    case Named(n) => |n| > 0
  }

  /** A pair-selection policy for IP2 and ISS2. `CustomSelector` stands
      for any callable the caller passes; it is only ever stored. */
  datatype PairSelector =
    | SequentialPairs
    | SequentialPairsWithStep(step: nat)
    | CustomSelector(id: nat)

  datatype Config = Config(
    nBasis: int,
    distribution: Distribution,
    algorithm: SpatialAlgorithm,
    domain: real,
    partitioning: bool,
    floor: real -> real,
    /** `None` when the attribute is never assigned. */
    pairSelector: Option<PairSelector>,
    normalization: Setting,
    scaleRestoration: Setting,
    referenceId: Option<int>)

  /** The argument checks of a constructor, in the order it performs them. */
  function CheckArguments(distribution: Distribution, spatialAlgorithm: string, domain: real,
                          scaleRestoration: Setting, referenceId: Option<int>): Result<SpatialAlgorithm>
  {
    if referenceId.None? && Truthy(scaleRestoration) then Err(MissingReferenceId)
    else if distribution.GeneralizedGaussian? && !(0.0 < distribution.beta < 2.0) then Err(ShapeParameterOutOfRange)
    else if spatialAlgorithm !in SpatialAlgorithmNames then Err(UnsupportedSpatialAlgorithm(spatialAlgorithm))
    else if !(1.0 <= domain <= 2.0) then Err(DomainOutOfRange)
    else Ok(ParseSpatialAlgorithm(spatialAlgorithm).value)
  }

  /** The pair selector a constructor stores. */
  function DefaultPairSelector(a: SpatialAlgorithm, given: Option<PairSelector>): Option<PairSelector>
  {
    match given
    case Some(_) => given
    case None =>
      if a == IP2 then Some(SequentialPairs)
      else if a == ISS2 then Some(SequentialPairsWithStep(2))
      else None
  }

  /** `GaussILRMA(...)`, `TILRMA(...)` or `GGDILRMA(...)`, chosen by `distribution`. */
  function NewIlrma(nBasis: int, distribution: Distribution, spatialAlgorithm: string, domain: real,
                    partitioning: bool, flooringFn: Option<real -> real>, pairSelector: Option<PairSelector>,
                    normalization: Setting, scaleRestoration: Setting, referenceId: Option<int>): (r: Result<Config>)
    // the failures, each with the condition under which it is the first check to fail
    ensures r == Err(MissingReferenceId) <==> referenceId.None? && Truthy(scaleRestoration)
    ensures r == Err(ShapeParameterOutOfRange) <==>
      !(referenceId.None? && Truthy(scaleRestoration)) &&
      distribution.GeneralizedGaussian? && !(0.0 < distribution.beta < 2.0)
    ensures r == Err(UnsupportedSpatialAlgorithm(spatialAlgorithm)) <==>
      !(referenceId.None? && Truthy(scaleRestoration)) &&
      (distribution.GeneralizedGaussian? ==> 0.0 < distribution.beta < 2.0) &&
      spatialAlgorithm !in SpatialAlgorithmNames
    ensures r.Ok? <==>
      !(referenceId.None? && Truthy(scaleRestoration)) &&
      (distribution.GeneralizedGaussian? ==> 0.0 < distribution.beta < 2.0) &&
      spatialAlgorithm in SpatialAlgorithmNames &&
      1.0 <= domain <= 2.0
    ensures r.Err? ==> Kind(r.error) == (if r.error == MissingReferenceId then ValueError else AssertionError)
    // what a successful construction stores
    ensures r.Ok? ==> Name(r.value.algorithm) == spatialAlgorithm
    ensures r.Ok? ==> r.value.nBasis == nBasis && r.value.distribution == distribution
    ensures r.Ok? ==> r.value.domain == domain && r.value.partitioning == partitioning
    ensures r.Ok? ==> r.value.normalization == normalization && r.value.scaleRestoration == scaleRestoration
    ensures r.Ok? ==> r.value.referenceId == referenceId
    ensures r.Ok? && flooringFn.None? ==> Kernels.IsIdentity(r.value.floor)
    ensures r.Ok? && flooringFn.Some? ==> forall x :: r.value.floor(x) == flooringFn.value(x)
    ensures r.Ok? && pairSelector.Some? ==> r.value.pairSelector == pairSelector
    ensures r.Ok? && pairSelector.None? ==>
      r.value.pairSelector == (if spatialAlgorithm == "IP2" then Some(SequentialPairs)
                               else if spatialAlgorithm == "ISS2" then Some(SequentialPairsWithStep(2))
                               else None)
  {
    var a :- CheckArguments(distribution, spatialAlgorithm, domain, scaleRestoration, referenceId);
    ParseNameRoundTrip(a, spatialAlgorithm);
    Ok(Config(nBasis, distribution, a, domain, partitioning, Kernels.ResolveFlooring(flooringFn),
              DefaultPairSelector(a, pairSelector), normalization, scaleRestoration, referenceId))
  }

  /** The update rule `update_spatial_model` calls. */
  datatype SpatialRoutine = UpdateByIp1 | UpdateByIp2 | UpdateByIss1 | UpdateByIss2

  predicate IsPairwise(r: SpatialRoutine)
  {
    r == UpdateByIp2 || r == UpdateByIss2
  }

  function SpatialRoutineOf(a: SpatialAlgorithm): (r: SpatialRoutine)
    ensures IsIpFamily(a) <==> (r == UpdateByIp1 || r == UpdateByIp2)
    ensures IsPairwise(r) <==> (a == IP2 || a == ISS2)
  {
    match a
    case IP => UpdateByIp1
    case IP1 => UpdateByIp1
    case IP2 => UpdateByIp2
    case ISS => UpdateByIss1
    case ISS1 => UpdateByIss1
    case ISS2 => UpdateByIss2
  }

  /** Every constructed configuration whose spatial update consumes a pair
      selector has one, whether given or defaulted. */
  lemma PairwiseRoutineHasSelector(nBasis: int, distribution: Distribution, spatialAlgorithm: string, domain: real,
                                   partitioning: bool, flooringFn: Option<real -> real>,
                                   pairSelector: Option<PairSelector>, normalization: Setting,
                                   scaleRestoration: Setting, referenceId: Option<int>)
    requires NewIlrma(nBasis, distribution, spatialAlgorithm, domain, partitioning, flooringFn,
                      pairSelector, normalization, scaleRestoration, referenceId).Ok?
    ensures var c := NewIlrma(nBasis, distribution, spatialAlgorithm, domain, partitioning, flooringFn,
                              pairSelector, normalization, scaleRestoration, referenceId).value;
            IsPairwise(SpatialRoutineOf(c.algorithm)) ==> c.pairSelector.Some?
  {
  }

  datatype NormalizationRoutine = ByPower | ByProjectionBack

  /** `normalize`: which routine runs, or the exception raised. */
  function NormalizationDispatch(normalization: Setting, partitioning: bool): (r: Result<NormalizationRoutine>)
    ensures !Truthy(normalization) <==> r == Err(NormalizationNotSet)
    ensures r == Ok(ByPower) <==> normalization == Flag(true) || normalization == Named("power")
    ensures r == Ok(ByProjectionBack) <==> normalization == Named("projection_back") && !partitioning
    ensures r == Err(ProjectionBackWithPartitioning) <==> normalization == Named("projection_back") && partitioning
    ensures r.Err? && r.error != NormalizationNotSet ==> Kind(r.error) == NotImplementedError
  {
    if !Truthy(normalization) then Err(NormalizationNotSet)
    else
      var name := if normalization.Flag? then "power" else normalization.name;
      if name == "power" then Ok(ByPower)
      else if name == "projection_back" then
        if partitioning then Err(ProjectionBackWithPartitioning) else Ok(ByProjectionBack)
      else Err(NormalizationNotImplemented(name))
  }

  /** The projection-back normalisation falls back to channel 0 when no reference is set. */
  function ProjectionBackReference(referenceId: Option<int>): (r: int)
    ensures referenceId.Some? ==> r == referenceId.value
    ensures referenceId.None? ==> r == 0
  {
    match referenceId
    case Some(id) => id
    case None => 0
  }

  datatype ScaleRestorationRoutine = ProjectionBack

  /** `restore_scale`: the technique applied, or the exception raised. */
  function ScaleRestorationDispatch(scaleRestoration: Setting): (r: Result<ScaleRestorationRoutine>)
    ensures !Truthy(scaleRestoration) <==> r == Err(ScaleRestorationNotSet)
    ensures r.Ok? <==> scaleRestoration == Flag(true) || scaleRestoration == Named("projection_back")
    ensures r.Err? && Truthy(scaleRestoration) ==>
      r == Err(ScaleRestorationNotSupported(scaleRestoration.name)) && Kind(r.error) == ValueError
  {
    if !Truthy(scaleRestoration) then Err(ScaleRestorationNotSet)
    else
      var name := if scaleRestoration.Flag? then "projection_back" else scaleRestoration.name;
      if name == "projection_back" then Ok(ProjectionBack)
      else Err(ScaleRestorationNotSupported(name))
  }

  /** The exponent of the multiplicative NMF updates: p/(p+2) for the
      Gaussian and Student's t models, p/(beta+p) for the generalised Gaussian. */
  function UpdateExponent(distribution: Distribution, domain: real): (e: real)
    requires 1.0 <= domain <= 2.0
    requires distribution.GeneralizedGaussian? ==> 0.0 < distribution.beta < 2.0
    ensures 0.0 < e < 1.0
    ensures !distribution.GeneralizedGaussian? ==> e * (domain + 2.0) == domain
    ensures distribution.GeneralizedGaussian? ==> e * (distribution.beta + domain) == domain
  {
    match distribution
    case GeneralizedGaussian(beta) => Ratio(domain, beta + domain)
    case _ => Ratio(domain, domain + 2.0)
  }

  /** `a / b` for 0 < a < b: strictly between zero and one. */
  function Ratio(a: real, b: real): (q: real)
    requires 0.0 < a < b
    ensures 0.0 < q < 1.0 && q * b == a
  {
    RatioBelowOne(a, b);
    a / b
  }

  lemma RatioBelowOne(a: real, b: real)
    requires 0.0 < a < b
    ensures 0.0 < a / b < 1.0
    ensures a / b * b == a
  {
    var q := a / b;
    assert q * b == a;
    if q >= 1.0 {
      assert false;
    }
  }

  /** One step of `update_once`. */
  datatype Step =
    | UpdateLatent
    | UpdateBasis
    | UpdateActivation
    | UpdateSpatial(routine: SpatialRoutine)
    | Normalize(normalization: NormalizationRoutine)

  /** The steps `update_once` performs in order; `Err` when the
      normalisation step raises (after the preceding steps have run). */
  function UpdateOnceSteps(c: Config): (r: Result<seq<Step>>)
    ensures r.Ok? <==> !Truthy(c.normalization) || NormalizationDispatch(c.normalization, c.partitioning).Ok?
    ensures r.Err? ==> r.error == NormalizationDispatch(c.normalization, c.partitioning).error
    ensures r.Ok? ==> (UpdateLatent in r.value <==> c.partitioning)
    ensures r.Ok? ==> var steps := r.value;
      var s := if c.partitioning then 1 else 0;
      && |steps| >= s + 3
      && steps[s] == UpdateBasis && steps[s + 1] == UpdateActivation
      && steps[s + 2] == UpdateSpatial(SpatialRoutineOf(c.algorithm))
      && (c.partitioning ==> steps[0] == UpdateLatent)
      && (Truthy(c.normalization) <==> |steps| == s + 4)
      && (Truthy(c.normalization) ==> steps[s + 3] == Normalize(NormalizationDispatch(c.normalization, c.partitioning).value))
  {
    var source := (if c.partitioning then [UpdateLatent] else []) + [UpdateBasis, UpdateActivation];
    var spatial := [UpdateSpatial(SpatialRoutineOf(c.algorithm))];
    if Truthy(c.normalization) then
      var n :- NormalizationDispatch(c.normalization, c.partitioning);
      Ok(source + spatial + [Normalize(n)])
    else
      Ok(source + spatial)
  }
}
