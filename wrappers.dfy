/** Option and Result, the two failure-carrying wrappers the model uses. */
module Wrappers {

  /** A value that may be missing: JavaScript `undefined`/`null` and SQL NULL become None. */
  datatype Option<+T> = None | Some(value: T)

  /** The outcome of an operation that may throw or reject. */
  datatype Result<+R, +E> = Success(value: R) | Failure(error: E)
}
