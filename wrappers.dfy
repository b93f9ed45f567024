/** Optional values, used wherever the Python code returns or stores `None`, and results
    that carry either a value or the error a handler answers with. */
module Wrappers {

  datatype Option<+T> = None | Some(value: T) {

    /** The value if present, `default` otherwise (Python's `d.get(k, default)`). */
    function GetOr(default: T): T
    {
      match this
      case Some(v) => v
      case None => default
    }
  }

  /** A key of a parsed JSON object: absent, present and `null`, or present with a value. */
  datatype Field<+T> = Absent | Null | Given(value: T) {

    /** Python's `d.get(k, default)`: `default` when the key is absent, `None` when it holds
        `null`. */
    function Get(default: T): (r: Option<T>)
      ensures r.None? <==> Null?
      ensures Absent? ==> r == Some(default)
      ensures Given? ==> r == Some(value)
    {
      match this
      case Absent => Some(default)
      case Null => None
      case Given(v) => Some(v)
    }
  }

  datatype Result<+R, +E> = Success(value: R) | Failure(error: E)
}
