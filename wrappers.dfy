/** Option and outcome values used throughout the model. */
module Wrappers {

  /** A value that may be absent: JavaScript's `null`/`undefined` alternative. */
  datatype Option<+T> = None | Some(value: T) {
    /** The value, or the given default when absent. */
    function GetOr(default: T): T {
      match this
      case Some(v) => v
      case None => default
    }
  }

  /** The result of an operation that either succeeds or reports an error value. */
  datatype Outcome<+E> = Pass | Fail(error: E)
}
