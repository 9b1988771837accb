/** Option and Result, the optional values and error outcomes the model uses. */
module Wrappers {

  /** A value that may be absent (a `null` reference in the modelled program). */
  datatype Option<+T> = None | Some(value: T) {
    function GetOr(default: T): T {
      match this
      case Some(v) => v
      case None => default
    }
  }

  /** The outcome of a call that may fail (a thrown exception in the modelled program). */
  datatype Result<+T, +E> = Success(value: T) | Failure(error: E)
}
