/** Option and Result: the two ways a value can be missing or an operation can fail. */
module Wrappers {

  /** A value that may be absent (`null` or `undefined` in JavaScript). */
  datatype Option<+T> = None | Some(value: T)

  /** The outcome of an operation that either returns a value or throws an error. */
  datatype Result<+R, +E> = Success(value: R) | Failure(error: E)
}
