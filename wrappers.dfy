/** Optional values: a JavaScript property that is either `undefined` or set. */
module Wrappers {

  datatype Option<+T> = None | Some(value: T) {

    /** The value when set, otherwise the given default (a destructuring default). */
    function GetOr(default: T): (r: T)
      ensures Some? ==> r == value
      ensures None? ==> r == default
    {
      match this
      case Some(v) => v
      case None => default
    }
  }
}
