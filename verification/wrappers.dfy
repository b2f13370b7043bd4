/** Optional values and results shared by the model's modules. */
module Wrappers {

  /** A value that may be absent: Python's `Optional[T]`, where `None` is absence. */
  datatype Option<+T> = None | Some(value: T)

  /** The outcome of an operation that either returns a value or raises an error. */
  datatype Result<+T, +E> = Success(value: T) | Failure(error: E)
}
