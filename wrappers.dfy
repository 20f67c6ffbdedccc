/** Option and Result, for JavaScript's `undefined` and for thrown errors. */
module Wrappers {

  /** `None` stands for a missing value (`undefined` in JavaScript). */
  datatype Option<+T> = None | Some(value: T)

  /** `Failure` stands for an exception thrown out of the function. */
  datatype Result<+R, +E> = Success(value: R) | Failure(error: E)
}
