/** Option and Result: the error paths of the modelled Python code (an exception
    that the caller sees, or a value that may be absent). */
module Wrappers {

  datatype Option<+T> = None | Some(value: T)

  datatype Result<+T, +E> = Success(value: T) | Failure(error: E)
}
