/** The two exceptions the vector headers can raise, and the result shapes
    that carry them back to the caller instead of a C++ throw. */
module Errors {

  /** std::out_of_range (from std::array::at) and std::range_error (from norm). */
  datatype Error = OutOfRange | RangeError

  /** The value an access returns, or the exception it throws. */
  datatype Result<T> = Ok(value: T) | Err(error: Error)

  /** The outcome of an access that returns nothing of interest (a write). */
  datatype Outcome = Pass | Fail(error: Error)
}
