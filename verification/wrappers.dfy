/** Option and Result, the two failure-carrying datatypes the game model uses. */
module Wrappers {

  /** A value that may be absent, such as a last-play date that was never stored. */
  datatype Option<+T> = None | Some(value: T)

  /** The outcome of an operation that the game can refuse. */
  datatype Result<+R, +E> = Success(value: R) | Failure(error: E)
}
