/** Optional values. JavaScript's `undefined`/`null` attribute and field values are `None`. */
module Wrappers {

  datatype Option<+T> = None | Some(value: T) {

    /** The value, or `default` when absent: JavaScript's `x || default` for non-falsy values */
    function GetOr(default: T): T {
      match this
      case Some(v) => v
      case None => default
    }
  }
}
