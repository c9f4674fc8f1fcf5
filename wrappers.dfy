/** Option and Result: absent values and the errors the services throw. */
module Wrappers {

  datatype Option<+T> = None | Some(value: T) {
    /** The value, or `default` when absent (JavaScript's `??`). */
    function GetOr(default: T): T {
      match this
      case Some(v) => v
      case None => default
    }
  }

  /** A service call either returns a value or throws an Error with a message. */
  datatype Result<+T> = Ok(value: T) | Err(error: string)
}
