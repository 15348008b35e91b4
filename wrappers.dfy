/** Optional values and outcomes of calls to the backend. */
module Wrappers {

  /** A value that may be missing (JavaScript's `null`/`undefined`). */
  datatype Option<T> = None | Some(value: T) {
    function GetOr(default: T): T {
      match this
      case Some(v) => v
      case None => default
    }
  }

  /** The settled outcome of an asynchronous backend call: the parsed body, or the
      message of the error it was rejected with. */
  datatype Result<T> = Ok(value: T) | Err(message: string)
}
