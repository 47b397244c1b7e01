/** Option and Result, used for fields the remote inventory may leave unset and for the
    fatal outcomes of a run. */
module Wrappers {

  datatype Option<+T> = None | Some(value: T)

  datatype Result<+T, +E> = Success(value: T) | Failure(error: E)
}
