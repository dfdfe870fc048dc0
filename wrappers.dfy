/** Option and Result, the two failure-carrying datatypes the rest of the model uses. */
module Wrappers {

  datatype Option<+T> = None | Some(value: T)

  /** Success carries a value; Failure carries the message an exception would have. */
  datatype Result<+R> = Success(value: R) | Failure(message: string)
}
