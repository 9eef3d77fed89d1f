/** Small failure-carrying datatypes shared by the modules of the model. */
module Wrappers {

  /** A value that may be absent: JavaScript's `null` / `undefined` on one side, a value on the other. */
  datatype Option<+T> = None | Some(value: T)

  /** The outcome of an operation that either produces a value or fails with an error. */
  datatype Result<+R, +E> = Success(value: R) | Failure(error: E)
}
