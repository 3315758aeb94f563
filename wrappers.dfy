/** Option and Result, used for PHP's `false`/`null` values and for thrown exceptions. */
module Wrappers {

  /** A value that may be absent: PHP's `false` or `null` in a `string|false` slot. */
  datatype Option<+T> = None | Some(value: T)

  /** The outcome of a call that either returns a value or throws. */
  datatype Result<+R, +E> = Success(value: R) | Failure(error: E)
}
