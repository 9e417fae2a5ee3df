/** Optional values and the outcome of a call to a backend service. */
module Wrappers {

  /** A value that may be absent (`null` / `undefined` in the source). */
  datatype Option<+T> = None | Some(value: T) {
    function GetOr(default: T): T
    {
      match this
      case Some(v) => v
      case None => default
    }
  }

  /** What an awaited service call produced: the resolved value, or a rejection. */
  datatype Response<+T> = Ok(value: T) | Failed
}
