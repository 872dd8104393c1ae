/** The floating-point kernels the library calls but whose values are not
    modelled: real powers `x ** e`, `np.sqrt` and the flooring function.
    They enter the model as function-valued parameters; the few facts the
    proofs rely on are stated here as predicates and demanded by `requires`.
 */
module Kernels {
  import opened Errors

  /** `x ** e` is positive whenever `x` is. */
  ghost predicate PowPositive(pow: (real, real) -> real)
  {
    forall x, e :: 0.0 < x ==> 0.0 < pow(x, e)
  }

  /** `sqrt` is the non-negative square root on non-negative reals. */
  ghost predicate IsSqrt(sqrt: real -> real)
  {
    forall x :: 0.0 <= x ==> 0.0 <= sqrt(x) && sqrt(x) * sqrt(x) == x
  }

  /** Flooring leaves the value unchanged (as `lambda x: x` does). */
  ghost predicate IsIdentity(floor: real -> real)
  {
    forall x :: floor(x) == x
  }

  /** Flooring keeps non-negative values non-negative (as `max_flooring` does). */
  ghost predicate KeepsNonNegative(floor: real -> real)
  {
    forall x :: 0.0 <= x ==> 0.0 <= floor(x)
  }

  /** A flooring function given as `None` is replaced by the identity. */
  function ResolveFlooring(given: Option<real -> real>): (floor: real -> real)
    ensures given.None? ==> IsIdentity(floor) && KeepsNonNegative(floor)
    ensures given.Some? ==> forall x :: floor(x) == given.value(x)
  {
    match given
    case None => x => x
    case Some(f) => f
  }
}
