/** Failure-carrying wrappers shared by the model: `Option` for Python's `None`,
    `Result` for an operation that raises instead of returning. */
module Wrappers {

  datatype Option<+T> = None | Some(value: T)

  datatype Result<+R, +E> = Ok(value: R) | Err(error: E)
}
