/** Option and Result, shared by every module of the model. */
module Wrappers {

  /** A value that may be absent: `undefined`/`null` in the portal's code. */
  datatype Option<+T> = None | Some(value: T) {

    /** The wrapped value, or `default` when absent. */
    function GetOr(default: T): T {
      match this
      case Some(v) => v
      case None => default
    }
  }

  /** The outcome of a server operation: a value, or the error it throws. */
  datatype Result<+R, +E> = Success(value: R) | Failure(error: E)
}
