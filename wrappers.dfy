/** The optional value used for JavaScript's `null`/`undefined` and for an
    awaited call that may throw: `None` is the rejected promise. */
module Wrappers {

  datatype Option<+T> = None | Some(value: T) {

    /** The value, or `default` when there is none. */
    function GetOr(default: T): T {
      match this
      case Some(v) => v
      case None => default
    }
  }
}
