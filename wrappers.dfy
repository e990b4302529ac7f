/** Success/failure carriers used for the source's exceptions and nullable values. */
module Wrappers {

  /** A value that may be absent (a TypeScript optional property or `null`). */
  datatype Option<+T> = None | Some(value: T) {
    function GetOr(default: T): T {
      match this
      case Some(v) => v
      case None => default
    }
  }

  /** The result of a computation that may throw: a value, or the thrown error. */
  datatype Result<+R, +E> = Ok(value: R) | Err(error: E)

  /** The result of an awaited call whose value is not used: it resolved, or it threw. */
  datatype Outcome<+E> = Pass | Fail(error: E)
}
