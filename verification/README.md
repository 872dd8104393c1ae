# ssspy separation core in Dafny

This project models three pieces of the `ssspy` blind source separation library and proves properties about them:

- **ILRMA** (independent low-rank matrix analysis, `ssspy/bss/ilrma.py`). This covers:
  - the constructors of the Gaussian, Student's t and generalised Gaussian variants, with their argument checks and defaults;
  - the dispatch of the spatial update, normalisation and scale-restoration options;
  - `_reset` and `_init_nmf`, including the rule that the ISS variants keep no demixing filter;
  - the per-bin demixing product `separate`;
  - both NMF (non-negative matrix factorisation) reconstruction paths;
  - the column renormalisation of the latent matrix Z;
  - `normalize_by_power`, which rescales the demixing filters W (or the output Y) together with the NMF factors;
  - how `__call__` assembles its output.
- **Greedy permutation alignment** (`ssspy/bss/_solve_permutation.py`). This covers:
  - the normalised magnitude pattern P and the self-correlation of each bin;
  - `itertools.permutations` over the sources, in `itertools` order;
  - the selection loop, which keeps the first best-scoring permutation;
  - the accumulating criterion;
  - the reordering of each bin's filter rows.
- **cACGMM base class** (complex angular central Gaussian mixture model, `ssspy/bss/cacgmm.py`). This covers:
  - `_reset`, including the unit-norm input and the default source count;
  - `_init_parameters`: uniform mixing weights, identity covariances and posteriors normalised over sources;
  - the abstract `__call__`, `separate` and `compute_loss`, which raise.

Tensors are nested sequences of reals, in numpy's axis order (`Tensors`). Complex values are modelled as reals, so `|y|^2` becomes `y * y`.

Three floating-point kernels enter as function-valued parameters: the real power `x ** e`, `np.sqrt`, and the flooring function. The facts the proofs use about them are predicates in `Kernels`, demanded by `requires`:
- a power of a positive number is positive;
- `sqrt` is the exact non-negative square root;
- a flooring function given as `None` is the identity.

Random draws from `rng` are inputs. An exception is an `Err` of the `Result` datatype in `Errors`, and `Errors.Kind` names the Python exception class it would be. Attributes that `_reset` tests with `hasattr` are `Option` fields: `None` means the attribute does not exist.

Modules:
- `Errors`, `Tensors` and `Kernels` hold the shared pieces.
- `IlrmaConfig` covers construction and dispatch.
- `Nmf` covers the NMF model, its reconstruction, the latent renormalisation and initialisation.
- `Ilrma` covers the ILRMA state: reset, separation, power normalisation and output.
- `Permutations` covers `itertools.permutations` and numpy's row reindexing `A[perm]`.
- `PermutationSolver` covers `correlation_based_permutation_solver`.
- `Cacgmm` covers the cACGMM base class.

Behaviour the model reproduces as written:
- The ISS variants leave `demix_filter = None` after `_reset`. Calling the same instance a second time therefore makes `_reset` separate with `None`, which fails (`Ilrma.SecondIssResetFails`).
- The permutation solver reads the source count from the last axis of W, so the model requires a square demixing filter per bin.

## Model

| member | source | states |
|---|---|---|
| IlrmaConfig.ParseSpatialAlgorithm | ssspy/bss/ilrma.py:16 | A spatial algorithm name is accepted exactly when it is one of IP, IP1, IP2, ISS, ISS1, ISS2 |
| IlrmaConfig.ParseNameRoundTrip | ssspy/bss/ilrma.py:16 | Naming and parsing an algorithm are inverse. A string parses to an algorithm if and only if it is that algorithm's name |
| IlrmaConfig.NewIlrma | ssspy/bss/ilrma.py:2412-2440 | A constructor fails with ValueError when `reference_id` is None and scale restoration is truthy (the base-class check). Otherwise it fails with AssertionError if beta is outside (0, 2) (GGD only), the algorithm name is unknown, or the domain is outside [1, 2], each in that order. Construction succeeds exactly when no check fails. The stored flooring is the identity when None was given. An explicit pair selector is kept. Otherwise IP2 gets the sequential selector, ISS2 gets the sequential selector with step 2, and other algorithms get none |
| IlrmaConfig.PairwiseRoutineHasSelector | ssspy/bss/ilrma.py:679-685 | Every constructed configuration whose spatial update consumes a pair selector (IP2, ISS2) has one |
| IlrmaConfig.SpatialRoutineOf | ssspy/bss/ilrma.py:937-954 | IP and IP1 use the one-row IP update and IP2 the pairwise one; ISS and ISS1 use the one-source ISS update and ISS2 the pairwise one. A routine belongs to the IP family iff the algorithm does, and is pairwise iff the algorithm is IP2 or ISS2 |
| IlrmaConfig.NormalizationDispatch | ssspy/bss/ilrma.py:290-305 | Normalisation that is not truthy fails its assertion. `True` and "power" select the power normalisation. "projection_back" selects projection back, unless partitioning is on, which raises NotImplementedError. Any other name raises NotImplementedError |
| IlrmaConfig.ProjectionBackReference | ssspy/bss/ilrma.py:400-406 | Projection-back normalisation uses the reference channel, or channel 0 when none is set |
| IlrmaConfig.ScaleRestorationDispatch | ssspy/bss/ilrma.py:466-481 | Scale restoration that is not truthy fails its assertion. `True` and "projection_back" select projection back; any other name raises ValueError carrying that name |
| IlrmaConfig.UpdateExponent | ssspy/bss/ilrma.py:2544 | The multiplicative-update exponent is p/(p+2) for the Gaussian and t models and p/(beta+p) for the GGD model (line 789 for p/(p+2)). It lies strictly between 0 and 1 for every admissible domain and beta |
| IlrmaConfig.UpdateOnceSteps | ssspy/bss/ilrma.py:748-763 | `update_once` updates Z (only with partitioning), then T, then V, then the spatial model with the routine of its algorithm, then normalises exactly when normalisation is truthy. It fails exactly when that normalisation dispatch fails |
| Kernels.ResolveFlooring | ssspy/bss/ilrma.py:74-77 | A flooring function of None becomes the identity; a given one is kept pointwise |
| Nmf.ReconstructSign | ssspy/bss/ilrma.py:275-284 | On both reconstruction paths, non-negative factors give a non-negative reconstruction. Positive factors with at least one basis give a positive one |
| Nmf.PartitionedIsGatedPerSource | ssspy/bss/ilrma.py:275-284 | The partitioned reconstruction sum_k Z[n,k] T[i,k] V[k,j] equals the per-source reconstruction with bases Z[n,k] T[i,k] and the shared activations for every source |
| Nmf.NormalizeColumns | ssspy/bss/ilrma.py:804-805 | Dividing Z by its sums over sources gives a column-stochastic matrix (every column sums to 1) that is non-negative, and positive when Z is. Each new entry times the old column sum is the old entry |
| Nmf.NormalizeColumnsUnique | ssspy/bss/ilrma.py:804-805 | The renormalised matrix is the only matrix of the same shape whose entries, times the column sums of Z, give back Z |
| Nmf.NormalizeColumnsIdempotent | ssspy/bss/ilrma.py:1651-1652 | Renormalising an already renormalised Z changes nothing |
| Nmf.NormalizeColumnsScaleInvariant | ssspy/bss/ilrma.py:2560-2561 | Renormalisation forgets any positive per-column scaling: scaled and unscaled Z renormalise to the same matrix |
| Nmf.ScaledColumns | ssspy/bss/ilrma.py:353-355 | Scaling each column of a non-negative Z by a positive factor scales its column sum by that factor and keeps the sums positive |
| Nmf.UpdateLatent | ssspy/bss/ilrma.py:804-805 | Z only needs non-negative entries and positive sums over sources, as a hard partition has. After the multiplicative step by a positive gain, the new Z is non-negative, positive where the old one was positive throughout, and column-stochastic. It is proportional, column by column, to gain times the old Z |
| Nmf.InitLatent | ssspy/bss/ilrma.py:187-191 | The initial Z is the draw divided by its sums over sources, then floored. With identity flooring it is column-stochastic. With a flooring that keeps non-negative values non-negative it is non-negative |
| Nmf.FloorIdentity | ssspy/bss/ilrma.py:74-77 | Identity flooring leaves a matrix unchanged |
| Ilrma.SeparateIdentity | ssspy/bss/ilrma.py:156-158 | Separating with the default filter (the identity in every bin) returns the input unchanged |
| Ilrma.SeparateDividedRows | ssspy/bss/ilrma.py:366-372 | Dividing row n of every bin's filter by psi[n] divides source n of the separated signal by psi[n]. The IP family's update of W and the ISS family's update of Y therefore agree |
| Ilrma.InitNmf | ssspy/bss/ilrma.py:171-227 | Every NMF factor is the existing attribute when there is one, otherwise the floored draw (Z is renormalised over sources first). The model is partitioned exactly when partitioning is on, and its shapes match the dimensions |
| Ilrma.InitNmfNonNegative | ssspy/bss/ilrma.py:171-227 | With non-negative attributes and draws and a flooring that keeps non-negative values non-negative, `_init_nmf` (and so `_reset`) yields non-negative T, V and Z |
| Ilrma.Reset | ssspy/bss/ilrma.py:134-169 | Reset fails without input. It fails when `demix_filter` exists but is None. Otherwise the filter is the identity when absent, or the given one. ISS variants then drop it (lines 745-746). The output is the input separated by that filter (the input itself for the default filter). The NMF factors are those of `_init_nmf` |
| Ilrma.SecondIssResetFails | ssspy/bss/ilrma.py:736-746 | After one successful reset of an ISS variant, resetting again with the attributes it left behind fails with the error of separating by None |
| Ilrma.PoweredScales | ssspy/bss/ilrma.py:346-353 | psi^p is positive for every source, where psi is the floored square root of the mean power of the source over bins and frames |
| Ilrma.NormalizeByPower | ssspy/bss/ilrma.py:307-372 | For the IP family the rows of W are divided by psi and the output is untouched; for the ISS family the output is divided by psi. The NMF model is rescaled by psi^p. With partitioning, Z only needs non-negative entries and positive sums over sources. The new Z is then non-negative, positive where the old one was positive throughout, and column-stochastic. The state stays consistent |
| Ilrma.NormalizeByPowerKeepsNonNegative | ssspy/bss/ilrma.py:350-364 | Power normalisation keeps non-negative NMF factors non-negative |
| Ilrma.NormalizeByPowerDividesSignal | ssspy/bss/ilrma.py:366-372 | Whatever the family, the separated signal after normalisation is the separated signal before it, source n divided by psi[n] |
| Ilrma.PowerNormalizedNmf | ssspy/bss/ilrma.py:350-364 | Without partitioning, T[n] is divided by psi[n]^p. With partitioning, for a non-negative Z with positive sums over sources, Z T is divided per source by psi^p while Z becomes column-stochastic. V is unchanged |
| Ilrma.LatentRenormalization | ssspy/bss/ilrma.py:353-356 | For a non-negative Z with positive sums over sources, moving the column sums of Z/psi^p into T and renormalising Z gives Z'[n,k] T'[i,k] = Z[n,k] T[i,k] / psi[n]^p |
| Ilrma.RescaledReconstruction | ssspy/bss/ilrma.py:350-364 | A model rescaled by psi^p reconstructs to the old reconstruction with source n divided by psi[n]^p, on either path |
| Ilrma.NormalizeByPowerRescalesModel | ssspy/bss/ilrma.py:307-372 | After power normalisation, the NMF reconstruction of each source is divided by psi[n]^p |
| Ilrma.MeanSquareDivided | ssspy/bss/ilrma.py:346 | Dividing a source by psi divides its mean power by psi^2 |
| Ilrma.UnitPowerAfterDivision | ssspy/bss/ilrma.py:346-348 | A source divided by the square root of its own mean power has mean power 1 |
| Ilrma.NormalizeByPowerGivesUnitPower | ssspy/bss/ilrma.py:346-372 | With identity flooring and an exact square root, every separated source has mean power 1 after power normalisation |
| Ilrma.Output | ssspy/bss/ilrma.py:714-715 | The returned output is `separate(input, W)` for the IP family and the directly updated Y for the ISS family, with the input's shape |
| Ilrma.FinishCall | ssspy/bss/ilrma.py:689-717 | After the iterations, `__call__` restores the scale exactly when scale restoration is truthy, failing on an unsupported name. It then returns the family's output |
| Permutations.PermutationsSound | ssspy/bss/_solve_permutation.py:65 | Every candidate listed is a permutation of `range(n_sources)` |
| Permutations.PermutationsComplete | ssspy/bss/_solve_permutation.py:65 | Every permutation of `range(n_sources)` is listed |
| Permutations.PermutationsCount | ssspy/bss/_solve_permutation.py:65 | There are exactly n! candidates, so the selection loop always has one |
| Permutations.PermuteRowsMultiset | ssspy/bss/_solve_permutation.py:90 | Reindexing a bin's rows by a permutation keeps the same rows with the same multiplicities |
| PermutationSolver.Pattern | ssspy/bss/_solve_permutation.py:67-70 | P[i,n,j] times the floored norm over sources at (i, j) is abs(Y[n,i,j]) |
| PermutationSolver.PatternUnitNorm | ssspy/bss/_solve_permutation.py:67-70 | With identity flooring and an exact square root, P has unit norm over sources at every time-frequency point |
| PermutationSolver.CorrelationIsSummedEnergy | ssspy/bss/_solve_permutation.py:71 | The correlation of a bin, summed over all source pairs, is the energy of P summed over sources, hence never negative |
| PermutationSolver.SelectPermutation | ssspy/bss/_solve_permutation.py:79-87 | The chosen candidate scores at least as high as every candidate, and strictly higher than every earlier one. Ties go to the first in `itertools` order |
| PermutationSolver.CriterionIsSumOfAligned | ssspy/bss/_solve_permutation.py:75-89 | The criterion only accumulates. It is the reference bin's pattern plus every aligned bin's pattern, each reordered by its choice |
| PermutationSolver.ChoicesGreedyExtend | ssspy/bss/_solve_permutation.py:77-89 | A first-best choice against the current criterion extends a greedy history to a greedy history |
| PermutationSolver.AlignBins | ssspy/bss/_solve_permutation.py:77-91 | The reference bin's filter is kept. Every later bin in sorted order is visited once and its filter rows are reordered by its choice. Each choice is the first best match against the criterion built from the choices before it. The choices are returned beside the filters |
| PermutationSolver.AlignedKeepsRows | ssspy/bss/_solve_permutation.py:90 | After alignment every bin's filter holds the same rows as before, only reordered |
| PermutationSolver.SolvePermutation | ssspy/bss/_solve_permutation.py:14-92 | With the default filter `None` the solver raises AttributeError and leaves the caller's value as it was. With no bins it raises IndexError. Otherwise every bin's rows are permuted and the lowest-correlation bin's are not. Each choice is greedy against the accumulated criterion. The caller's filter is the returned array when `overwrite` is set and is untouched otherwise |
| Cacgmm.SourceCount | ssspy/bss/cacgmm.py:89-95 | The source count is `n_sources`, or the channel count when it is None |
| Cacgmm.UnitInput | ssspy/bss/cacgmm.py:85-87 | Each entry of the unit input, times the norm of its observation vector over channels, is the input entry |
| Cacgmm.UnitInputHasUnitNorm | ssspy/bss/cacgmm.py:85-87 | With an exact square root, every observation vector of the unit input has norm 1 |
| Cacgmm.InitParameters | ssspy/bss/cacgmm.py:100-122 | Mixing weights are 1/N for every source and bin and covariances are the identity. Each posterior entry times the sum of the draws over sources is the draw. All shapes are (N, I), (N, I, C, C) and (N, I, J) |
| Cacgmm.MixingSumsToOne | ssspy/bss/cacgmm.py:115 | For every bin, the initial mixing weights sum to 1 over the sources |
| Cacgmm.IdentityApply | ssspy/bss/cacgmm.py:116-117 | The initial covariance maps every vector to itself |
| Cacgmm.PosteriorIsDistribution | ssspy/bss/cacgmm.py:118-122 | At every time-frequency point the initial posterior is a distribution over sources: entries in [0, 1] summing to 1 |
| Cacgmm.NormalizedIsDistribution | ssspy/bss/cacgmm.py:122 | Non-negative weights divided by their positive total lie in [0, 1] and sum to 1 |
| Cacgmm.Reset | ssspy/bss/cacgmm.py:71-98 | Reset fails its assertion exactly when no input is set. Otherwise it stores the input, its unit version, the dimensions and the defaulted source count, and initialises the parameters |
| Cacgmm.Call | ssspy/bss/cacgmm.py:45-69 | The base class's `__call__` always ends in NotImplementedError |
| Cacgmm.Separate | ssspy/bss/cacgmm.py:124-136 | The base class's `separate` raises NotImplementedError |
| Cacgmm.ComputeLoss | ssspy/bss/cacgmm.py:138-144 | The base class's `compute_loss` raises NotImplementedError |

## Left out

- Complex arithmetic: all values are reals and `|y|^2` is `y * y`. None of the stated properties depends on conjugation.
- Floating point: rounding, infinities and NaN are out. Where the library would silently divide by zero, the model requires the divisor to be non-zero:
  - the cACGMM unit input of an all-zero observation;
  - a zero posterior total;
  - a floored norm of zero in the permutation solver;
  - a zero floored psi in power normalisation;
  - the mean of an empty spectrogram;
  - a zero sum over sources of the latent draw that `_init_nmf` renormalises;
  - a zero sum over sources of Z / psi^p in the partitioned power normalisation (it is positive exactly when Z's own sum is).
- `x ** e`, `np.sqrt` and the flooring function are parameters. `max_flooring` is not part of this model; only identity flooring is used in the unit-norm and unit-power lemmas.
- The multiplicative updates of T, V and Z (`update_basis`, `update_activation`, the gain of `update_latent`), `update_spatial_model_ip1/ip2/iss1/iss2`, and the loss and log-determinant are floating-point kernels. Only the order of the update steps, the exponents and the renormalisation of Z are modelled.
- `Nmf.UpdateLatent`: takes the gain `(num / denom) ** exponent` as a positive input instead of computing it from Y, T and V.
- `normalize_by_projection_back` and `apply_projection_back`: only the dispatch, the reference fallback and the partitioning error are modelled, because the scaling uses `np.linalg.inv`.
- `Ilrma.FinishCall`: takes projection back as a function-valued parameter, and the iteration driver (`IterativeMethodBase.__call__`, callbacks, loss recording) is not part of this model.
- `sequential_pair_selector`, `warning_ip2` and `__repr__` are not part of this model; a pair selector is only stored.
- `rng` and `np.random.default_rng()`: the draws are inputs with the shapes the library asks for.
- `PermutationSolver.SolvePermutation`: the `np.argsort` order is an input required to list each bin once in non-decreasing correlation, because numpy does not fix the order of ties. A non-square demixing filter is excluded.
- `Ilrma.Reset`: a `demix_filter`, `latent`, `basis` or `activation` set by keyword must already have the shape the dimensions give it. The library checks none of them: a 2-D filter would broadcast through `W @ X`, and other mismatches fail later inside numpy.
- `Cacgmm.Reset`: models only the `n_sources` keyword argument among those `_reset` may set.
- The `CACGMM` subclass's own constructor (its `reference_id`) and `compute_logdet` are not part of this model.
- `ssspy/transform/whiten.py` and the test files are not part of this model.
