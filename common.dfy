/** Failure-compatible wrappers shared by the model's modules. */
module Common {

  /** A value that may be absent (Python's `None`). */
  datatype Option<+T> = None | Some(value: T)

  /** The outcome of an operation that may raise. */
  datatype Result<+R, +E> = Ok(value: R) | Err(error: E)
}
