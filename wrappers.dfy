/** Optional values and success/failure results, standing for JavaScript's
    `null`/`undefined` and for thrown errors. */
module Wrappers {

  datatype Option<+T> = None | Some(value: T) {

    /** `x ?? d` and `x || d` on a value that is absent. */
    function GetOr(default: T): T {
      match this
      case Some(v) => v
      case None => default
    }
  }

  /** A value, or the message of the error that was thrown instead. */
  datatype Result<+T> = Ok(value: T) | Err(message: string)
}
