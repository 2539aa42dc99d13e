/** Failure-carrying values used throughout the model: an optional value, and
    the outcome of a call that either produces a value or raises an error. */
module Wrappers {

  /** A value that may be absent (Python's `None`). */
  datatype Option<+T> = None | Some(value: T) {

    /** The value, or `default` when absent (Python's `d.get(k, default)`). */
    function GetOr(default: T): T {
      match this
      case Some(v) => v
      case None => default
    }
  }

  /** The outcome of a call that may raise: `Ok` carries the value returned,
      `Err` carries what the raised exception reports. */
  datatype Result<+T, +E> = Ok(value: T) | Err(error: E)
}
