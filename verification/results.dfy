/** Failure-carrying wrappers shared by every module of the model. */
module Results {

  /** A value that may be absent: Python's `None` or a nullable column. */
  datatype Option<+T> = None | Some(value: T)

  /** The outcome of an operation that can raise: `Err` stands for the exception. */
  datatype Result<+T, +E> = Ok(value: T) | Err(error: E)
}
