/** Optional values and results, used for the JavaScript values that may be
    missing (`undefined`, `null`) and for operations that may throw. */
module Wrappers {

  datatype Option<+T> = None | Some(value: T) {

    /** The value, or `default` when there is none (JavaScript's `x || default`
        and `x ?? default` on a value whose only falsy form is absence). */
    function GetOr(default: T): T {
      match this
      case Some(v) => v
      case None => default
    }
  }

  /** The outcome of an operation that either returns a value or throws an
      error carrying a message. */
  datatype Result<+T> = Ok(value: T) | Err(message: string)
}
