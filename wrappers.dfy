/** The nil-or-value and value-or-error results the customer service returns. */
module Wrappers {

  /** A value that may be absent: stands for a Go pointer that may be nil. */
  datatype Option<+T> = None | Some(value: T)

  /** A value or an error: stands for a Go `(value, error)` result pair. */
  datatype Result<+T, +E> = Success(value: T) | Failure(error: E)
}
