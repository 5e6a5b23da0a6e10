/** Option stands for a Java reference that may be null or a call that may fail;
    Result for a call that either returns a value or throws. */
module Wrappers {
  datatype Option<+T> = None | Some(value: T)

  datatype Result<+T, +E> = Success(value: T) | Failure(error: E)
}
