/** Option and Result: the error channel that replaces the source's exceptions. */
module Wrappers {

  datatype Option<+T> = None | Some(value: T)

  /** The outcome of a route handler: its response body, or the application error it raises. */
  datatype Result<+T, +E> = Ok(value: T) | Err(error: E)
}
