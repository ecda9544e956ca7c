/** Option, Result and Outcome: the stand-ins for Java's null and exceptions. */
module Wrappers {

  /** A value that may be absent (Java `null`). */
  datatype Option<+T> = None | Some(value: T)

  /** A computation that yields a value or fails with an error. */
  datatype Result<+T, +E> = Success(value: T) | Failure(error: E)

  /** A side-effecting call that returns normally or throws. */
  datatype Outcome<+E> = Pass | Fail(error: E)
}
