/** The optional value and the outcome-or-failure used wherever the parser's Python code either produces a value or fails. */
module Wrappers {
  datatype Option<+T> = None | Some(value: T)

  datatype Result<+T, +E> = Ok(value: T) | Err(error: E)
}
