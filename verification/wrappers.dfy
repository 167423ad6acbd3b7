/** Failure-compatible wrappers shared by the whole model. */
module Wrappers {

  /** An optional value: a JSON field that may be absent. */
  datatype Option<+T> = None | Some(value: T) {

    /** The wrapped value, or `default` when absent. */
    function GetOr(default: T): T {
      match this
      case Some(v) => v
      case None => default
    }
  }

  /** Either a value or the error that an operation threw. */
  datatype Result<+R, +E> = Success(value: R) | Failure(error: E) {

    /** The success value as an Option; a thrown error becomes `null`. */
    function ToOption(): Option<R> {
      match this
      case Success(v) => Some(v)
      case Failure(_) => None
    }
  }
}
