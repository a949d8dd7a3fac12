/** Option and Result, the shapes used for JavaScript's `undefined`/`null` and thrown errors. */
module Wrappers {

  /** A value that may be absent (`undefined` or `null` in the source). */
  datatype Option<+T> = None | Some(value: T)

  /** Either a value or the error a call throws. */
  datatype Result<+R, +E> = Success(value: R) | Failure(error: E)
}
