/** Small failure-compatible wrappers shared by the other modules. */
module Base {

  /** A value that may be absent (Python's `None`). */
  datatype Option<+T> = None | Some(value: T)

  /** The outcome of an operation that can raise. */
  datatype Result<+T, +E> = Ok(value: T) | Err(error: E)
}
