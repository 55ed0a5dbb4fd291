/** Option and Result, the two wrappers every other module returns its outcomes in. */
module Outcomes {

  /** A value that may be missing: a nullable column, an absent header or a failed parse. */
  datatype Option<+T> = None | Some(value: T)

  /** The outcome of a service call: the value it returns or the error it throws. */
  datatype Result<+T, +E> = Ok(value: T) | Err(error: E)
}
