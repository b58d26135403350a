/** Option and Result, the two failure-carrying wrappers the model uses for
    values that may be absent and for operations that raise. */
module Wrappers {

  datatype Option<+T> = None | Some(value: T)

  datatype Result<+R, +E> = Success(value: R) | Failure(error: E)
}
