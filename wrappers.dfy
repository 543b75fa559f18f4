/** Option and Result values shared by the retry model. */
module Wrappers {

  /** A value that may be absent; stands for Python's `Optional[...] = None`. */
  datatype Option<+T> = None | Some(value: T) {

    /** The held value, or `default` when absent (Python's `default if x is None else x`). */
    function GetOr(default: T): (r: T)
      ensures Some? ==> r == value
      ensures None? ==> r == default
    {
      match this
      case Some(v) => v
      case None => default
    }
  }

  /** A computation that either produced a value or raised an error. */
  datatype Result<+T, +E> = Ok(value: T) | Err(error: E)
}
