/** Option, Result and Outcome: null references and thrown exceptions of the source, as values. */
module Wrappers {

  /** A value that may be absent: Java's nullable reference, or a JSON member that is absent or null. */
  datatype Option<+T> = None | Some(value: T) {
    function GetOr(default: T): T {
      match this
      case Some(v) => v
      case None => default
    }
  }

  /** The result of a computation that may throw: a value, or the exception it threw. */
  datatype Result<+T, +E> = Ok(value: T) | Err(error: E)

  /** The result of a `void` computation that may throw. */
  datatype Outcome<+E> = Pass | Fail(error: E)
}
