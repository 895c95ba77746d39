/** Optional values and success-or-error results, used for nullable columns and
    for handlers that either return a row or raise an HTTP error. */
module Wrappers {

  datatype Option<+T> = None | Some(value: T) {

    /** Python's `value or default` for a value that is never falsy when present. */
    function GetOr(default: T): T
    {
      match this
      case Some(v) => v
      case None => default
    }
  }

  datatype Result<+T, +E> = Ok(value: T) | Err(error: E)
}
