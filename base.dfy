/** Failure-carrying result types shared by every module of the model. */
module Base {

  /** A value that may be absent (Python's `None`). */
  datatype Option<+T> = None | Some(value: T)

  /** Either a value or the error that a Python `raise` would carry. */
  datatype Result<+T, +E> = Success(value: T) | Failure(error: E)
}
