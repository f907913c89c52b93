/** Option and Result, the shapes the Go code spells as a nil pointer and an
    `(value, error)` pair. Errors are the text Go's `%v` prints for them. */
module Wrappers {

  datatype Option<+T> = None | Some(value: T)

  datatype Result<+T> = Success(value: T) | Failure(error: string)
}
