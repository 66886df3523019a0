/** Failure-carrying datatypes that stand in for Java's exceptions. */
module Wrappers {

  /** A value, or the absence of one (a Java call that threw). */
  datatype Option<+T> = None | Some(value: T)

  /** A value, or the error that prevented computing it. */
  datatype Result<+T, +E> = Success(value: T) | Failure(error: E)

  /** A step that either completed or failed with an error (a Java `void` method that may throw). */
  datatype Outcome<+E> = Pass | Fail(error: E)
}
