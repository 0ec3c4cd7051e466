/** Option and Result values, used for the nullable values and the promise rejections of the app. */
module Wrappers {

  /** A value that may be absent (`null` / `undefined` in the app). */
  datatype Option<+T> = None | Some(value: T)

  /** The settled state of a promise: resolved with a value or rejected with an error. */
  datatype Result<+R, +E> = Success(value: R) | Failure(error: E)
}
