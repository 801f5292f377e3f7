/** Failure-carrying values shared by the rest of the model. */
module Wrappers {

  /** A value that may be absent: Python's `Optional[...]` arguments. */
  datatype Option<+T> = None | Some(value: T)

  /** The outcome of a tool: a value, or the exception it raises. */
  datatype Result<+T, +E> = Success(value: T) | Failure(error: E)
}
