/** Option and Result, the two failure-carrying shapes the model uses. */
module Wrappers {

  /** Python's `None` versus a present value. */
  datatype Option<+T> = None | Some(value: T)

  /** A return value or the error the source reports instead. */
  datatype Result<+R, +E> = Success(value: R) | Failure(error: E)
}
