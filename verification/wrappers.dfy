/** Values that carry either a result or the exception an operation raises. */
module Wrappers {

  /** A value that may be absent; `None` is the end of an iteration. */
  datatype Option<+T> = None | Some(value: T)

  /** What an operation returns, or the exception it raises instead. */
  datatype Result<+T, +E> = Ok(value: T) | Err(error: E)

  /** The outcome of an operation that returns nothing: it completes, or it raises. */
  datatype Outcome<+E> = Pass | Fail(error: E)
}
