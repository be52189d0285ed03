/** Optional values (JavaScript's `undefined`/`null`) and results of calls that may throw. */
module Wrappers {

  /** `None` stands for a missing, `null` or `undefined` value. */
  datatype Option<+T> = None | Some(value: T) {
    function GetOr(default: T): T {
      match this
      case Some(v) => v
      case None => default
    }
  }

  /** `Failure` carries the message of the `Error` a call threw. */
  datatype Result<+T, +E> = Success(value: T) | Failure(error: E)
}
