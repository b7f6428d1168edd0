/** Optional values and parse results. */
module Wrappers {

  /** A JavaScript value that may be `null` or `undefined`. */
  datatype Option<T> = None | Some(value: T)
  {
    /** `x ?? d`. */
    function GetOr(d: T): T
    {
      match this
      case None => d
      case Some(v) => v
    }
  }

  /** The outcome of a validation that either yields a value or rejects the input. */
  datatype Result<T> = Ok(value: T) | Err
}
