/** Option and Result, used for the error paths of the dashboard's decoders and the database oracle. */
module Wrappers {

  datatype Option<+T> = None | Some(value: T)

  datatype Result<+T, +E> = Success(value: T) | Failure(error: E)
}
