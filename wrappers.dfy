/** Failure-carrying result types shared by every component. */
module Wrappers {

  /** A value that may be absent; Python's `None` / `Optional[T]`. */
  datatype Option<+T> = None | Some(value: T)

  /** The outcome of an operation that may raise: `Failure` carries the exception's message. */
  datatype Result<+R> = Success(value: R) | Failure(error: string)
}
