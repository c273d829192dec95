/** Optional values and results with an error, as used throughout the model
    for Python's `None` and for exceptions that the source raises. */
module Wrappers {

  datatype Option<+T> = None | Some(value: T) {
    /** The value, or `default` when there is none (Python's `x if x is not None else default`). */
    function GetOr(default: T): T {
      match this
      case Some(v) => v
      case None => default
    }
  }

  /** `Failure` stands for an exception raised out of the modelled function. */
  datatype Result<+R, +E> = Success(value: R) | Failure(error: E)
}
