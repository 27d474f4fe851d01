/** Optional values: a value that may be absent (JavaScript's `undefined` or `null`). */
module Wrappers {

  datatype Option<+T> = None | Some(value: T) {

    /** The value, or `default` when absent (JavaScript's `x ?? default`). */
    function GetOr(default: T): T {
      match this
      case Some(v) => v
      case None => default
    }
  }

  /** The outcome of an operation that may throw: its value, or the fact that it threw. */
  datatype Attempt<+T> = Ok(value: T) | Threw
}
