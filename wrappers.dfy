/** Option and Result, used for the optional depth overlay and for the
    fallible surface acquisition. */
module Wrappers {
  datatype Option<+T> = None | Some(value: T)

  datatype Result<+R, +E> = Success(value: R) | Failure(error: E)
}
