/** Failure-compatible wrappers used across the model: Python's `None`-or-value
    and value-or-exception results. */
module Wrappers {

  datatype Option<+T> = None | Some(value: T)

  /** A computation that either produced a value or raised an exception
      carrying the exception's text. */
  datatype Result<+T, +E> = Success(value: T) | Failure(error: E)
}
