/** Option and Result values: PHP's nullable strings and the exceptions the helper throws. */
module Wrappers {

  /** A value that may be missing; PHP's `?string` is `Option<string>`. */
  datatype Option<+T> = None | Some(value: T)

  /** The outcome of an operation that either succeeds or throws. */
  datatype Result<+R, +E> = Success(value: R) | Failure(error: E)
}
