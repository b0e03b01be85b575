/**
  Small failure-carrying datatypes shared by the other modules: an optional
  value, and a result that is either a value or an error.
 */
module Basics {

  datatype Option<+T> = None | Some(value: T) {

    /** The value if there is one, otherwise `default` (Python's `dict.get(k, default)`). */
    function GetOr(default: T): T {
      match this
      case Some(v) => v
      case None => default
    }
  }

  datatype Result<+T, +E> = Success(value: T) | Failure(error: E)

  /** The last element of a non-empty sequence. */
  function Last<T>(s: seq<T>): T
    requires |s| > 0
  {
    s[|s| - 1]
  }
}
