/** Plain wrapper datatypes standing for Java's Optional values and thrown exceptions. */
module Wrappers {

  /** An optional value: `None` stands for `Optional.empty()` or a Java `null`. */
  datatype Option<+T> = None | Some(value: T)

  /** A value or the exception that was thrown instead of returning it. */
  datatype Result<+T, +E> = Success(value: T) | Failure(error: E)

  /** The outcome of an operation that returns nothing but may throw. */
  datatype Outcome<+E> = Pass | Fail(error: E)
}
