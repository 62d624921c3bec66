/** Shared failure-free containers. */
module Wrappers {
  /** A value the source leaves undefined or null when it is absent. */
  datatype Option<+T> = None | Some(value: T)
  {
    function GetOr(default: T): T {
      if Some? then value else default
    }
  }
}
