/** Optional values, for Python's `None` and for dictionary lookups that may miss. */
module Wrappers {

  datatype Option<+T> = None | Some(value: T) {

    /** The value, or `default` when there is none (Python's `d.get(k, default)`). */
    function GetOr(default: T): T {
      match this
      case Some(v) => v
      case None => default
    }
  }

  /** A value or an error text (a Python exception turned into data). */
  datatype Result<+T> = Success(value: T) | Failure(error: string)
}
