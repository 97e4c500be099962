/** Option and Result values shared by every module of the model. */
module Wrappers {

  datatype Option<+T> = None | Some(value: T)

  /** An operation's outcome: a value, or the reason it was refused. */
  datatype Result<+R, +E> = Success(value: R) | Failure(error: E)
}
