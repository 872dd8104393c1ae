/** Failure values of the separation library.

    Every exception the modelled code raises, whether through `raise` or
    through a failing `assert`, becomes an `Error`; `ErrorKind` says which
    Python exception class it is.
 */
module Errors {

  datatype ErrorKind = ValueError | AssertionError | NotImplementedError | IndexError | AttributeError

  datatype Error =
    /** `reference_id` is None while scale restoration is requested. */
    | MissingReferenceId
    /** The spatial algorithm name is not one of the supported names. */
    | UnsupportedSpatialAlgorithm(name: string)
    /** The domain parameter lies outside [1, 2]. */
    | DomainOutOfRange
    /** The GGD shape parameter beta lies outside (0, 2). */
    | ShapeParameterOutOfRange
    /** `normalize` was called while normalisation is switched off. */
    | NormalizationNotSet
    /** A normalisation name other than "power" or "projection_back". */
    | NormalizationNotImplemented(name: string)
    /** Projection-back normalisation together with the partitioning function. */
    | ProjectionBackWithPartitioning
    /** `restore_scale` was called while scale restoration is switched off. */
    | ScaleRestorationNotSet
    /** A scale-restoration name other than "projection_back". */
    | ScaleRestorationNotSupported(name: string)
    /** `_reset` was called before any input was given. */
    | NoInput
    /** `separate` was given `None` as its demixing filter: `None @ X` falls
        back to numpy's matmul, which rejects the 0-d operand. */
    | MissingDemixFilter
    /** An abstract method of a base class was called. */
    | MethodNotImplemented(member: string)
    /** An empty array was indexed. */
    | EmptyIndex
    /** The permutation solver was left with its default `demix_filter=None`:
        `None.copy()` or `None.shape` has no such attribute. */
    | AbsentDemixFilter

  function Kind(e: Error): ErrorKind
  {
    match e
    case MissingReferenceId => ValueError
    case UnsupportedSpatialAlgorithm(_) => AssertionError
    case DomainOutOfRange => AssertionError
    case ShapeParameterOutOfRange => AssertionError
    case NormalizationNotSet => AssertionError
    case NormalizationNotImplemented(_) => NotImplementedError
    case ProjectionBackWithPartitioning => NotImplementedError
    case ScaleRestorationNotSet => AssertionError
    case ScaleRestorationNotSupported(_) => ValueError
    case NoInput => AssertionError
    case MissingDemixFilter => ValueError
    case MethodNotImplemented(_) => NotImplementedError
    case EmptyIndex => IndexError
    case AbsentDemixFilter => AttributeError
  }

  /** The outcome of an operation that may raise. */
  datatype Result<+T> = Ok(value: T) | Err(error: Error) {
    predicate IsFailure() {
      Err?
    }

    function PropagateFailure<U>(): Result<U>
      requires Err?
    {
      Err(error)
    }

    function Extract(): T
      requires Ok?
    {
      value
    }
  }

  datatype Option<+T> = None | Some(value: T)
}
