/** Option and Result, the two failure-carrying shapes used throughout the model. */
module Wrappers {

  /** A value that may be absent (the source's `undefined`). */
  datatype Option<+T> = None | Some(value: T)

  /** Either a value or an error message (the source's thrown `Error`). */
  datatype Result<+T, +E> = Success(value: T) | Failure(error: E)

  /** How a call into code outside the model ended: it completed, or it threw. */
  datatype Outcome = Ok | Throws(message: string)
}
