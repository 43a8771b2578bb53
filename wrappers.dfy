/** Option and Result: the "may be absent" and "may fail" results used by every module. */
module Wrappers {

  datatype Option<+T> = None | Some(value: T) {
    /** The value, or `default` when absent (Python's `dict.get(key, default)` shape). */
    function GetOr(default: T): T {
      match this
      case Some(v) => v
      case None => default
    }
  }

  /** A computation that either yields a value or raises the named error. */
  datatype Result<+T> = Ok(value: T) | Err(error: string)
}
