/** Failure-compatible result types shared by the modules of this model. */
module Wrappers {

  /** A value or its absence; stands in for a Java reference that may be null. */
  datatype Option<+T> = None | Some(value: T)

  /** A returned value, or the exception the Java code would have thrown. */
  datatype Result<+R, +E> = Success(value: R) | Failure(error: E)

  /** The outcome of a void Java method that may throw. */
  datatype Outcome<+E> = Pass | Fail(error: E)
}
