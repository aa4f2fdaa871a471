/** Option and Result values used in place of Python's `None` and raised exceptions. */
module Wrappers {

  /** `None` is Python's `None`; `Some(v)` is a present value. */
  datatype Option<+T> = None | Some(value: T)

  /** A computation that either produced a value or raised an error. */
  datatype Result<+T, +E> = Ok(value: T) | Err(error: E)

  /** A computation with no value of interest that either completed or raised an error. */
  datatype Outcome<+E> = Pass | Fail(error: E)
}
