/** Option and Result, the two return shapes the model uses for Go's
    (value, error) pairs and nil-able pointers. */
module Wrappers {

  datatype Option<+T> = None | Some(value: T)

  datatype Result<+T, +E> = Success(value: T) | Failure(error: E)
}
