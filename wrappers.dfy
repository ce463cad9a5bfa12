/** Failure-carrying values shared by the whole model. */
module Wrappers {

  /** A value that may be missing: TypeScript's `T | undefined` (and `T | null`). */
  datatype Option<+T> = None | Some(value: T) {
    function GetOr(default: T): T {
      match this
      case Some(v) => v
      case None => default
    }
  }

  /** The outcome of a check: either the accepted value or the reason it was refused. */
  datatype Result<+R, +E> = Success(value: R) | Failure(error: E)
}
