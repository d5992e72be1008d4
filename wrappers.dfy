/** Small failure-carrying datatypes shared by the whole model. */
module Wrappers {

  /** A value that may be missing: Go's nil interface, a failed lookup or a failed decode. */
  datatype Option<+T> = None | Some(value: T)

  /** A Go `error` return: `Pass` is nil, `Fail` carries what went wrong. */
  datatype Outcome<+E> = Pass | Fail(error: E)

  /** A Go `(T, error)` return where only one side is meaningful. */
  datatype Result<+T, +E> = Success(value: T) | Failure(error: E)
}
