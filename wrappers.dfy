/** The optional value used throughout the model for Python's `None`-or-value. */
module Wrappers {

  datatype Option<T> = None | Some(value: T)
  {
    /** The value, or `default` when there is none (Python's `x if x is not None else default`). */
    function GetOr(default: T): (r: T)
      ensures Some? ==> r == value
      ensures None? ==> r == default
    {
      match this
      case None => default
      case Some(v) => v
    }
  }
}
