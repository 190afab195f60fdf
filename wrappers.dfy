/** Option and Result, the usual failure-carrying wrappers. */
module Wrappers {

  /** A Go pointer or optional field: `None` is nil. */
  datatype Option<+T> = None | Some(value: T)

  /** A Go `(value, error)` pair where exactly one side is meaningful. */
  datatype Result<+R, +E> = Success(value: R) | Failure(error: E)
}
