/** Optional values and results with an error, as used across the model. */
module Wrappers {

  datatype Option<+T> = None | Some(value: T) {
    function GetOr(default: T): T {
      match this
      case Some(v) => v
      case None => default
    }
  }

  datatype Result<+T, +E> = Ok(value: T) | Err(error: E)

  /** Puts `x` in front of a sequence that may be missing. */
  function Prepend<T>(x: T, r: Option<seq<T>>): (q: Option<seq<T>>)
    ensures q.Some? <==> r.Some?
    ensures q.Some? ==> q.value == [x] + r.value
  {
    match r
    case Some(u) => Some([x] + u)
    case None => None
  }
}
