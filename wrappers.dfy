/** Option and Result, the failure-carrying values used across the model. */
module Wrappers {

  /** A value that may be absent; stands for PHP's nullable fields. */
  datatype Option<+T> = None | Some(value: T) {
    function GetOr(default: T): T {
      match this
      case Some(v) => v
      case None => default
    }
  }

  /** The outcome of an operation that can fail (PHP throws there). */
  datatype Result<+T, +E> = Ok(value: T) | Err(error: E)
}
