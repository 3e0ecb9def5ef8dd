/** Option, outcome and result values for the operations that can throw. */
module Wrappers {

  datatype Option<+T> = None | Some(value: T)

  /** The one exception the core raises: std::out_of_range, from a failed
      bounds check in `.at()` or from a lookup of a missing chunk. */
  datatype Error = OutOfRange

  /** The outcome of an operation that returns nothing but may throw. */
  datatype Outcome = Pass | Fail(error: Error)

  /** The outcome of an operation that returns a value or throws. */
  datatype Result<+T> = Ok(value: T) | Err(error: Error)
}
