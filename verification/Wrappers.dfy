/** Failure-compatible wrappers shared by the other modules: an optional value
    (a JavaScript property that may be `undefined`) and a value-or-error result
    (a call that may throw). */
module Wrappers {

  datatype Option<+T> = None | Some(value: T) {

    /** The value, or `default` when there is none. */
    function GetOr(default: T): T {
      match this
      case Some(v) => v
      case None => default
    }
  }

  datatype Result<+R, +E> = Success(value: R) | Failure(error: E)
}
