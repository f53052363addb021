/** Failure-compatible wrappers shared by the two models: an optional value, a
    result that is either a value or the exception the Java code would throw. */
module Wrappers {

  datatype Option<+T> = None | Some(value: T)

  datatype Result<+R, +E> = Success(value: R) | Failure(error: E)

  /** java.lang.IllegalArgumentException, carrying its message. */
  datatype IllegalArgumentException = IllegalArgumentException(message: string)
}
