/** Option and Result, used for the source's nullable values and for its exceptions. */
module Wrappers {

  datatype Option<+T> = None | Some(value: T) {
    /** Kotlin's `?:` operator: the value, or `default` when absent. */
    function GetOr(default: T): T {
      match this
      case Some(v) => v
      case None => default
    }
  }

  datatype Result<+T, +E> = Success(value: T) | Failure(error: E)
}
