/** Option and Result types shared by the model. */
module Wrappers {

  /** A value that may be absent; `None` stands for Go's nil. */
  datatype Option<+T> = None | Some(value: T)

  /** The outcome of an operation that the source aborts with a panic on failure. */
  datatype Result<+T, +E> = Success(value: T) | Failure(error: E)
}
