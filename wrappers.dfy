/** Failure-carrying return values: the model's stand-in for Java's null and exceptions. */
module Wrappers {

  /** A value that may be absent (a Java reference that may be null). */
  datatype Option<+T> = None | Some(value: T)

  /** Either a value or the exception the Java code throws instead. */
  datatype Result<+T, +E> = Success(value: T) | Failure(error: E)

  /** A check that either passes or throws (a `void` method with a `throws` clause). */
  datatype Outcome<+E> = Pass | Fail(error: E)
}
