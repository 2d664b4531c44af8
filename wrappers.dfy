/** Option and Result, for the catalogue lookup that may miss and the
    evaluation that may fail with an unknown category. */
module Wrappers {

  datatype Option<+T> = None | Some(value: T)

  datatype Result<+R, +E> = Success(value: R) | Failure(error: E)
}
