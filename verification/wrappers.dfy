/** Failure-carrying result types shared by every module of the model. */
module Wrappers {

  /** A value that may be absent; `None` also stands for "the Python code raised here". */
  datatype Option<+T> = None | Some(value: T)

  /** A value or the reason it could not be produced. */
  datatype Result<+T, +E> = Success(value: T) | Failure(error: E)
}
