/** Option and Result values for absent data and error returns. */
module Wrappers {

  /** A value that may be absent: PHP's `null` or an unset array entry. */
  datatype Option<+T> = None | Some(value: T) {
    function GetOr(default: T): T {
      match this
      case Some(v) => v
      case None => default
    }
  }

  /** The outcome of an operation that can throw. */
  datatype Result<+R, +E> = Success(value: R) | Failure(error: E)
}
