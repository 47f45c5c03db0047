/** Option and Result types used for the source's `None` values and raised errors. */
module Wrappers {

  datatype Option<+T> = None | Some(value: T)

  /** `Failure` carries the message of the exception the source raises. */
  datatype Result<+T> = Success(value: T) | Failure(error: string)
}
