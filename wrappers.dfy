/** Option and Result, the two wrappers the model uses for Go's nil values and (value, error) pairs. */
module Wrappers {

  /** A value that may be absent: Go's nil pointer or nil interface. */
  datatype Option<+T> = None | Some(value: T)

  /** A Go `(value, error)` pair where exactly one side is meaningful; errors are their `Error()` text. */
  datatype Result<+T> = Success(value: T) | Failure(error: string)
}
