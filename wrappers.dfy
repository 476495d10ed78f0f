/** Failure-compatible wrappers shared by the plugin model and the runner model. */
module Wrappers {

  /** A value that may be absent: a NULL pointer, a failed host query, Python's -1 from find. */
  datatype Option<+T> = None | Some(value: T)

  /** A value or the error that stopped its computation (a raised Python exception). */
  datatype Result<+T, +E> = Ok(value: T) | Err(error: E)
}
