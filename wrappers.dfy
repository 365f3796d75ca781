/** Optional values and the outcome of a call that may throw. */
module Wrappers {

  /** A value that may be absent: JavaScript's `null`/`undefined` for an optional field. */
  datatype Option<+T> = None | Some(value: T) {
    function GetOr(default: T): T {
      match this
      case Some(v) => v
      case None => default
    }
  }

  /** What an awaited call produced: a value, or an exception carrying `error.message`. */
  datatype Outcome<+T> = Ok(value: T) | Err(message: string)
}
