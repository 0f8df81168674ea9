/** Option and Result, the two failure-carrying shapes the model needs. */
module Wrappers {

  /** `None` stands for JavaScript's `undefined` wherever a value may be absent. */
  datatype Option<+T> = None | Some(value: T)

  /** The outcome of an operation that either produces a value or throws. */
  datatype Result<+R, +E> = Success(value: R) | Failure(error: E)
}
