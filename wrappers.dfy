/** Optional values and results with an error message, used wherever the
    source returns `null`/`undefined` or throws an `Error`. */
module Wrappers {

  datatype Option<+T> = None | Some(value: T) {
    function GetOr(default: T): T {
      match this
      case Some(v) => v
      case None => default
    }
  }

  /** The outcome of a step that either yields a value or throws an `Error`
      carrying `message`. */
  datatype Result<+T> = Ok(value: T) | Err(message: string)
}
