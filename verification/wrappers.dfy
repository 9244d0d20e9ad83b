/** Failure-carrying result types shared by the client and the entity. */
module Wrappers {

  /** A value that may be absent: what the transport returns for one request. */
  datatype Option<+T> = None | Some(value: T)

  /** The value of an operation, or the exception it raises. */
  datatype Result<+R, +E> = Success(value: R) | Failure(error: E)

  /** Whether an operation that returns nothing completed or raised. */
  datatype Outcome<+E> = Pass | Fail(error: E)
}
