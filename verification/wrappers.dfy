/** Option and Result value types shared by the other modules. */
module Wrappers {

  /** A value that may be absent; also stands for a Go value that may be nil. */
  datatype Option<+T> = None | Some(value: T)

  /** Either a computed value or the error that prevented it. */
  datatype Result<+T, +E> = Success(value: T) | Failure(error: E)
}
