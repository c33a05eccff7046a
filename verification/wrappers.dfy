/** Failure-carrying return types standing in for Java's checked and unchecked exceptions. */
module Wrappers {

  /** A value that may be absent (Java's `null`). */
  datatype Option<+T> = None | Some(value: T)

  /** A value, or the exception raised instead of producing it. */
  datatype Result<+R, +E> = Success(value: R) | Failure(error: E)

  /** Normal completion of a `void` call, or the exception it raised. */
  datatype Outcome<+E> = Pass | Fail(error: E)
}
