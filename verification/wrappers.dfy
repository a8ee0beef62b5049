/** Failure-compatible wrappers standing in for Java's null references and exceptions. */
module Wrappers {

  /** A value that may be absent: `None` plays the part of a Java `null`. */
  datatype Option<+T> = None | Some(value: T)

  /** The result of an operation that returns a value or throws. */
  datatype Result<+T, +E> = Success(value: T) | Failure(error: E)

  /** The result of a `void` operation that completes or throws. */
  datatype Outcome<+E> = Pass | Fail(error: E)
}
