/** Optional values: the model's stand-in for `undefined`/`null`/`None`. */
module Wrappers {

  datatype Option<+T> = None | Some(value: T) {

    /** The value, or `default` when there is none (JavaScript's `a ?? b`). */
    function GetOr(default: T): T {
      match this
      case Some(v) => v
      case None => default
    }
  }

  /** A returned value or a raised error. */
  datatype Result<+T, +E> = Ok(value: T) | Err(error: E)
}
