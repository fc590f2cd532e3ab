/** Option, Result and Outcome: the shapes the model uses for Python's
    `None`, for a value-or-exception and for "returned normally or raised". */
module Wrappers {

  datatype Option<+T> = None | Some(value: T)

  /** A call that either returned `value` or raised `error`. */
  datatype Result<+T, +E> = Ok(value: T) | Err(error: E)

  /** A call without a return value that either returned or raised `error`. */
  datatype Outcome<+E> = Pass | Fail(error: E)
}
