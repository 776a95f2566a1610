/** Option and Result, as the rest of the model uses them. */
module Wrappers {

  /** A value that may be absent (Python's `Optional[...]`). */
  datatype Option<+T> = None | Some(value: T) {
    function GetOr(default: T): T {
      match this
      case Some(v) => v
      case None => default
    }
  }

  /** The outcome of an operation that can raise: `Err` carries what made it fail. */
  datatype Result<+T, +E> = Ok(value: T) | Err(error: E)
}
