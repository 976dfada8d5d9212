/** Option and Result values standing in for Python's None and raised errors. */
module Wrappers {

  datatype Option<+T> = None | Some(value: T)

  /** An operation that either yields a value or fails with a message. */
  datatype Result<+T> = Ok(value: T) | Err(message: string)
}
