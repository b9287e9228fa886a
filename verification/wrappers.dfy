/** Failure-carrying result types shared by every module of the model. */
module Wrappers {

  /** A value that may be absent: the model of a JavaScript `null` return. */
  datatype Option<+T> = None | Some(value: T)

  /** The outcome of a request handler: a value, or the error it answers with. */
  datatype Result<+R, +E> = Success(value: R) | Failure(error: E)
}
