/** Option and Result, the failure-compatible values the model uses in place
    of null pointers, out-parameters and exceptions. */
module Wrappers {

  datatype Option<+T> = None | Some(value: T)

  datatype Result<+R, +E> = Success(value: R) | Failure(error: E)
}
