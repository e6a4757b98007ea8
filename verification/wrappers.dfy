/** Error-carrying result type shared by the request builder and the client. */
module Wrappers {

  /** Either a value or the error that stopped the computation. */
  datatype Result<+T, +E> = Success(value: T) | Failure(error: E)
}
