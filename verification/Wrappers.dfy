/** Optional values and fallible results. */
module Wrappers {

  /** A value that may be absent: JavaScript's `null`, `undefined` or NaN. */
  datatype Option<T> = None | Some(value: T) {
    function GetOr(default: T): (r: T)
      ensures this.Some? ==> r == value
      ensures this.None? ==> r == default
    {
      match this
      case Some(v) => v
      case None => default
    }
  }

  /** The value of a computation that may throw. */
  datatype Result<T> = Success(value: T) | Failure(error: string)
}
