/** Option and Result, the two shapes used for "maybe absent" and "value or exception". */
module Wrappers {

  datatype Option<+T> = None | Some(value: T)

  datatype Result<+R, +E> = Success(value: R) | Failure(error: E)
}
