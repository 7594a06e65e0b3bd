/** Optional values: JavaScript's `null` for a slot that may be unset. */
module Wrappers {

  datatype Option<T> = None | Some(value: T) {

    /** The value, or `default` when unset (JavaScript's `x ?? default`). */
    function GetOr(default: T): T {
      match this
      case Some(v) => v
      case None => default
    }
  }
}
