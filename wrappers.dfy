/** Option and Result, standing in for Python's `None` returns and for the exceptions
    the report assembly can raise. */
module Wrappers {

  /** `None` is a fetch that failed (the source returns Python `None`). */
  datatype Option<+T> = None | Some(value: T) {
    function GetOr(default: T): (r: T)
      ensures Some? ==> r == value
      ensures None? ==> r == default
    {
      match this
      case Some(v) => v
      case None => default
    }
  }

  /** `Err` is an uncaught Python exception. */
  datatype Result<+R, +E> = Ok(value: R) | Err(error: E)
}
