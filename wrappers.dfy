/** Option and Result, for JavaScript's null/undefined and for the failure paths of the core. */
module Wrappers {

  datatype Option<+T> = None | Some(value: T)

  datatype Result<+R, +E> = Success(value: R) | Failure(error: E)
}
