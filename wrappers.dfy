/** Failure-carrying result types used in place of the service's exceptions. */
module Wrappers {

  datatype Option<+T> = None | Some(value: T)

  /** A value or the reason it could not be produced. */
  datatype Result<+R, +E> = Success(value: R) | Failure(error: E)

  /** Success or failure of an operation that returns nothing (a Java `void` method). */
  datatype Outcome<+E> = Pass | Fail(error: E)
}
