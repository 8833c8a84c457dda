/** Option, Result and Outcome: the Python model's `None`, raised exceptions and error returns. */
module Wrappers {

  datatype Option<+T> = None | Some(value: T) {
    /** `x or default` for a value that is either present or None. */
    function GetOr(default: T): T {
      match this
      case Some(v) => v
      case None => default
    }
  }

  /** A computation that either returns a value or raises an exception with a message. */
  datatype Result<+T> = Success(value: T) | Failure(error: string)

  /** A computation with no value that either completes or raises. */
  datatype Outcome = Pass | Fail(error: string)
}
