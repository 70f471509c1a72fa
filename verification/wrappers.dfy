/** Optional values: a field the session event may or may not carry, a turn that
    may or may not be in progress, a session start that may or may not be set. */
module Wrappers {

  datatype Option<+T> = None | Some(value: T) {

    /** The carried value, or `default` when there is none. */
    function GetOr(default: T): T
    {
      match this
      case Some(v) => v
      case None => default
    }
  }
}
