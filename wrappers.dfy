/** Option and Result values shared by the modules of the model. */
module Wrappers {

  /** A value that may be absent: `null`/`undefined` in the web client. */
  datatype Option<+T> = None | Some(value: T)

  /** The outcome of a backend handler: a response body or an HTTP error. */
  datatype Result<+R, +E> = Success(value: R) | Failure(error: E)
}
