/** Optional values, results and pass/fail outcomes shared by the other modules. */
module Wrappers {

  /** A value that may be absent (`undefined` in the source). */
  datatype Option<+T> = None | Some(value: T) {
    /** The value, or `default` when absent (the source's `??`). */
    function GetOr(default: T): T {
      match this
      case Some(v) => v
      case None => default
    }
  }

  /** The value a step produced, or the error it threw. */
  datatype Result<+T, +E> = Ok(value: T) | Err(error: E)

  /** Whether a step that produces nothing succeeded, or the error it threw. */
  datatype Outcome<+E> = Pass | Fail(error: E)
}
