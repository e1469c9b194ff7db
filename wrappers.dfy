/** Optional values (JavaScript `undefined`/`null` versus a value) and the
    outcome of an operation that may throw. */
module Wrappers {

  datatype Option<T> = None | Some(value: T) {
    function GetOr(default: T): T {
      match this
      case None => default
      case Some(v) => v
    }
  }

  /** `Failure(message)` stands for a thrown `Error(message)`. */
  datatype Result<T> = Success(value: T) | Failure(message: string)
}
