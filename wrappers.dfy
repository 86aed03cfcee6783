/** Optional values and failure-compatible results, for Java's nullable references,
    `Optional` and thrown exceptions. */
module Wrappers {

  /** A value that may be missing: a Java `null` reference or an empty `Optional`. */
  datatype Option<+T> = None | Some(value: T) {

    /** The value, or `default` when it is missing. */
    function GetOr(default: T): T {
      match this
      case Some(v) => v
      case None => default
    }
  }

  /** The outcome of an operation that may throw: its value, or the error it raised. */
  datatype Result<+T, +E> = Ok(value: T) | Failure(error: E)
}
