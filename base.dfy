/** Small failure-carrying datatypes shared by the other modules. */
module Base {

  /** A value that may be absent; `None` stands where pandas would produce NaN or NaT. */
  datatype Option<+T> = None | Some(value: T)

  /** The outcome of an operation that may raise. */
  datatype Result<+T, +E> = Ok(value: T) | Err(error: E)
}
