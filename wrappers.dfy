/** The `Option` and `Result` datatypes shared by the other modules. */
module Wrappers {

  datatype Option<+T> = None | Some(value: T) {
    /** The wrapped value, or `default` when there is none. */
    function GetOr(default: T): T {
      match this
      case Some(v) => v
      case None => default
    }
  }

  /** The outcome of a step that may raise a Python exception. */
  datatype Result<+T, +E> = Ok(value: T) | Err(error: E)
}
