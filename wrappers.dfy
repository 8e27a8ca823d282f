/** Option and Result values that stand for Python's `None` and for raised exceptions. */
module Wrappers {

  datatype Option<+T> = None | Some(value: T) {
    function GetOr(default: T): T {
      match this
      case Some(v) => v
      case None => default
    }
  }

  /** The outcome of a Python call that either returns `value` or raises an exception with `error`. */
  datatype Result<+T> = Ok(value: T) | Raise(error: string)
}
