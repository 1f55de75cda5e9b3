/** Option and Result, used for pandas' missing values of a non-numeric kind
    and for the Python exceptions the notification code can raise. */
module Wrappers {

  datatype Option<+T> = None | Some(value: T)

  datatype Result<+T, +E> = Success(value: T) | Failure(error: E)
}
