/** Failure-compatible wrappers used throughout the model. */
module Wrappers {

  /** A value that may be absent: a cache miss, an unparsable payload, an omitted argument. */
  datatype Option<+T> = None | Some(value: T) {

    /** The wrapped value, or `default` when there is none. */
    function GetOr(default: T): T {
      match this
      case Some(v) => v
      case None => default
    }
  }

  /** Either a computed value or the error the source would throw. */
  datatype Result<+R, +E> = Success(value: R) | Failure(error: E)
}
