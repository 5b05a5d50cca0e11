/** Missing values and failing computations. */
module Wrappers {

  /** A value that may be missing (a NaN cell in a table). */
  datatype Option<+T> = None | Some(value: T) {
    function GetOr(default: T): T {
      match this
      case Some(v) => v
      case None => default
    }
  }

  /** The outcome of a pipeline run: its artifact, or the error that stopped it. */
  datatype Result<+R, +E> = Success(value: R) | Failure(error: E)
}
