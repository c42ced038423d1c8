/** Failure-carrying results, standing in for the exceptions the Python code raises. */
module Wrappers {

  /** A value that may be absent (Python's `Optional`, or `None`). */
  datatype Option<+T> = None | Some(value: T)

  /** The value of a computation that returns normally, or the error it raises. */
  datatype Result<+T, +E> = Ok(value: T) | Err(error: E)

  /** The outcome of an operation that returns `None` on success and raises otherwise. */
  datatype Outcome<+E> = Pass | Fail(error: E)
}
