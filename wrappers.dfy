/** Optional values and outcomes shared by the server and client models. */
module Wrappers {

  /** A value that may be absent: JavaScript's `undefined`/`null` or a present value. */
  datatype Option<T> = None | Some(value: T)

  /** The result of an operation that either returns a value or throws. */
  datatype Result<T, E> = Success(value: T) | Failure(error: E)
}
