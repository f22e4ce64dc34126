/** Optional values and operation outcomes, used where the source returns
    `T | null`, `T | undefined` or throws an `Error`. */
module Wrappers {

  datatype Option<+T> = None | Some(value: T) {
    function GetOr(default: T): T {
      match this
      case Some(v) => v
      case None => default
    }
  }

  /** The outcome of an operation that may throw: `Failure` carries the
      message of the `Error` the source throws. */
  datatype Result<+R> = Success(value: R) | Failure(error: string)
}
