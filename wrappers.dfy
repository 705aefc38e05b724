/** Option and Result, the shapes the engine uses for nullable dates and thrown errors. */
module Wrappers {

  /** A value that may be absent (the source's `null`). */
  datatype Option<T> = None | Some(value: T)

  /** A computation that returns a value or fails with an error (the source's `throw`). */
  datatype Result<T, E> = Success(value: T) | Failure(error: E)
}
