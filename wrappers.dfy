/** Option, Result and Outcome: the values the model uses for C# nulls,
    thrown exceptions and early exits. */
module Wrappers {

  datatype Option<+T> = None | Some(value: T)

  datatype Result<+R, +E> = Success(value: R) | Failure(error: E)

  /** The result of an operation that either completes or stops with an error. */
  datatype Outcome<+E> = Pass | Fail(error: E)
}
