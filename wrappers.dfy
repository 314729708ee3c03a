/** Option and Result, for absent children, failed parses and failed lookups. */
module Wrappers {

  /** A value that may be absent: Python's `None` or an actual object. */
  datatype Option<+T> = None | Some(value: T)

  /** The outcome of a computation that may raise an error instead of returning. */
  datatype Result<+T, +E> = Ok(value: T) | Err(error: E)
}
