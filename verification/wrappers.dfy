/** Failure-compatible wrappers shared by every module of the model. */
module Wrappers {

  /** An optional value: a request-body property that may be absent. */
  datatype Option<T> = None | Some(value: T) {

    /** The value when present, otherwise the given default. */
    function GetOr(default: T): T {
      match this
      case Some(v) => v
      case None => default
    }
  }

  /** The outcome of a service call: a value, or the exception it throws. */
  datatype Result<T, E> = Ok(value: T) | Err(error: E)

  /** The outcome of a check that returns nothing when it passes. */
  datatype Outcome<E> = Pass | Fail(error: E)
}
