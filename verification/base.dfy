/** Failure-carrying wrappers used throughout the model. */
module Base {

  /** A value that may be absent; `None` also stands for Python's `None`. */
  datatype Option<+T> = None | Some(value: T)

  /** The result of an operation that either produces a value or raises. */
  datatype Result<+T, +E> = Success(value: T) | Failure(error: E)
}
