/** Failure-carrying datatypes shared by every module of the model: Go's
    `(value, error)` returns become `Result`, a lone `error` becomes `Outcome`,
    and a nil-able pointer or interface becomes `Option`. */
module Wrappers {

  datatype Option<+T> = None | Some(value: T)

  datatype Result<+T, +E> = Ok(value: T) | Err(error: E)

  /** A Go function that returns only `error`: `Pass` is a nil error. */
  datatype Outcome<+E> = Pass | Fail(error: E)
}
