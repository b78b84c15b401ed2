/** The value-or-error result of a fallible operation (Rust's `Result`). */
module Outcomes {
  datatype Result<+T, +E> = Ok(value: T) | Err(error: E)
}
