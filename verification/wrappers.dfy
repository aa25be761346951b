/** Optional values: the model's stand-in for Kotlin's nullable references (`T?`). */
module Wrappers {

  /** `None` plays the part of `null`. */
  datatype Option<+T> = None | Some(value: T) {

    /** The value, or `default` when absent (Kotlin's `?:`). */
    function GetOr(default: T): T {
      match this
      case Some(v) => v
      case None => default
    }
  }

  /** The set holding the value of `o`, if any. */
  function ToSet<T>(o: Option<T>): (r: set<T>)
    ensures o.None? <==> r == {}
    ensures o.Some? ==> r == {o.value}
  {
    match o
    case None => {}
    case Some(v) => {v}
  }
}
