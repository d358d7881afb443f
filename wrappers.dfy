/** Option and Result: the outcomes of the fallible steps of the agent. */
module Wrappers {

  datatype Option<+T> = None | Some(value: T)

  /** A step that either yields a value or raises; the failure carries the text of the exception. */
  datatype Result<+R, +E> = Success(value: R) | Failure(error: E)
}
