/** Option and Result values, used for the query parameters that may be
    absent and for the handler's single catch-all failure path. */
module Wrappers {

  datatype Option<+T> = None | Some(value: T)

  /** The outcome of the handler's try block: a value, or the message of
      the error that was thrown. */
  datatype Result<+R> = Success(value: R) | Failure(message: string)
}
