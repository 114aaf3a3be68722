/** Failure-compatible wrappers used for the error paths that the Java code expresses
    with null and with IllegalStateException. */
module Wrappers {

  /** A value that may be absent; `None` plays the role of a Java `null`. */
  datatype Option<+T> = None | Some(value: T)

  /** Either a successful value or the error the operation raised. */
  datatype Result<+T, +E> = Success(value: T) | Failure(error: E)
}
