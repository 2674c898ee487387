/** Option and Result values used where the original code returns None or raises. */
module Wrappers {

  datatype Option<+T> = None | Some(value: T) {

    /** The carried value, or `default` when there is none (Python's dict.get with a default). */
    function GetOr(default: T): T {
      match this
      case Some(v) => v
      case None => default
    }
  }

  /** Either a value or the message of the exception the original code would raise. */
  datatype Result<+R, +E> = Success(value: R) | Failure(error: E)
}
