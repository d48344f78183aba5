/** Failure-carrying wrappers shared by every module of the model. */
module Common {

  /** A value that may be absent: JavaScript's `null`/`undefined`, Python's `None`. */
  datatype Option<+T> = None | Some(value: T)

  /** The outcome of an operation that can raise: a value, or the error it raises. */
  datatype Result<+R, +E> = Success(value: R) | Failure(error: E)
}
