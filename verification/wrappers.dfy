/** Failure-carrying datatypes shared by every module of the model. */
module Wrappers {

  /** A value that may be missing: JavaScript's `undefined` for a lookup. */
  datatype Option<+T> = None | Some(value: T) {

    /** Returns the value, or `default` when there is none (JavaScript `x ?? default`). */
    function GetOr(default: T): T {
      match this
      case Some(v) => v
      case None => default
    }
  }

  /** The outcome of an operation that the source ends by returning or by throwing. */
  datatype Result<+R, +E> = Success(value: R) | Failure(error: E)
}
