/** Optional values and results with an error side, as used throughout the model. */
module Wrappers {

  /** A value that may be absent (Python's `None`). */
  datatype Option<+T> = None | Some(value: T) {
    function GetOr(default: T): T {
      match this
      case Some(v) => v
      case None => default
    }
  }

  /** The outcome of a request handler: a response body or an error. */
  datatype Result<+T, +E> = Ok(value: T) | Err(error: E)
}
