/** Optional values: a Ruby attribute that may be nil. */
module Wrappers {

  datatype Option<+T> = None | Some(value: T) {

    /** The value when present, the default when absent (Ruby's `x || default`). */
    function GetOr(default: T): T {
      match this
      case Some(v) => v
      case None => default
    }
  }
}
