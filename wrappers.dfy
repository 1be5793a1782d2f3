/** Failure-carrying wrapper types shared by the modules of the model. */
module Wrappers {

  datatype Option<+T> = None | Some(value: T)

  /** The value of a computation that either succeeds or raises `error`. */
  datatype Result<+T, +E> = Success(value: T) | Failure(error: E)

  /** The outcome of a computation that returns nothing but may raise `error`. */
  datatype Outcome<+E> = Pass | Fail(error: E)
}
