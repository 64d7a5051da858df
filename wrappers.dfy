/** Optional values: the feed's partially filled cache and dictionary lookups with defaults. */
module Wrappers {

  datatype Option<T> = None | Some(value: T) {

    /** The value, or a default when it is missing. */
    function GetOr(default: T): T {
      match this
      case Some(v) => v
      case None => default
    }
  }
}
