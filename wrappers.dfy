/** Option and Result values shared by every widget model. */
module Wrappers {

  /** An optional value: `undefined`/`null` in the dashboard's scripts is `None`. */
  datatype Option<+T> = None | Some(value: T) {
    function GetOr(default: T): T {
      match this
      case Some(v) => v
      case None => default
    }
  }

  /** The outcome of a step that can fail (an exception thrown by the script). */
  datatype Result<+T, +E> = Ok(value: T) | Err(error: E)
}
