/** Optional values (Ruby's `nil`) and the outcome of an operation that may raise. */
module Wrappers {

  /** A value that may be absent; `None` plays the part of Ruby's `nil`. */
  datatype Option<+T> = None | Some(value: T)

  /** Either the value an operation returns or the error it raises. */
  datatype Result<+R, +E> = Success(value: R) | Failure(error: E)
}
