/** Option and Result, the two failure-carrying shapes the rest of the model uses. */
module Wrappers {

  /** A value that may be absent: JavaScript's `null` / `undefined`, or an empty storage slot. */
  datatype Option<+T> = None | Some(value: T)

  /** The outcome of a call that may throw: `Success` carries the value, `Failure` what was thrown. */
  datatype Result<+R, +E> = Success(value: R) | Failure(error: E)
}
