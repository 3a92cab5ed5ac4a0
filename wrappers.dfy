/** Small failure-compatible wrappers shared by the other modules. */
module Wrappers {

  /** A value that may be absent: Go's nil, a nil map or a missing entry. */
  datatype Option<+T> = None | Some(value: T) {
    function GetOr(default: T): T {
      match this
      case Some(v) => v
      case None => default
    }
  }

  /** The result of an operation that returns a value or a Go `error`. */
  datatype Result<+T> = Ok(value: T) | Err(error: string)
}
