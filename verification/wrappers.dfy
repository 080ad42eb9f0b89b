/** Failure-carrying datatypes used throughout the configuration model. */
module Wrappers {

  /** A value that may be absent, as Python's `Optional[str]` / `None`. */
  datatype Option<+T> = None | Some(value: T) {

    /** The carried value, or `default` when absent. */
    function GetOr(default: T): T {
      match this
      case Some(v) => v
      case None => default
    }
  }

  /** Either a computed value or the error that replaced it (a raised exception in the source). */
  datatype Result<+R, +E> = Success(value: R) | Failure(error: E)
}
