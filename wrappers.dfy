/** Option, Result and Outcome: the model's stand-ins for Java's null,
    Optional and thrown exceptions. */
module Wrappers {

  /** A value that may be absent: Java's null reference or an empty Optional. */
  datatype Option<+T> = None | Some(value: T)

  /** A computation that either yields a value or fails with an error,
      as a Java constructor that may throw does. */
  datatype Result<+R, +E> = Success(value: R) | Failure(error: E)

  /** A check that either passes or fails with an error. */
  datatype Outcome<+E> = Pass | Fail(error: E)
}
