/** Optional values and error results shared by the order model. */
module Wrappers {

  /** A value that may be absent, as a PHP form field that may hold null. */
  datatype Option<T> = None | Some(value: T) {

    /** The value, or `default` when absent (PHP's `??` operator). */
    function GetOr(default: T): T {
      match this
      case Some(v) => v
      case None => default
    }
  }

  /** The outcome of an operation that can fail with an error of type E. */
  datatype Result<T, E> = Ok(value: T) | Err(error: E)
}
