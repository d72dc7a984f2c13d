/** Option and Result, used for the source's missing values and raised errors. */
module Wrappers {

  datatype Option<+T> = None | Some(value: T) {

    /** Returns the value, or `default` when there is none. */
    function GetOr(default: T): T {
      match this
      case Some(v) => v
      case None => default
    }
  }

  /** A computation that either produces a value or fails with a message (a raised exception). */
  datatype Result<+R> = Success(value: R) | Failure(error: string)
}
