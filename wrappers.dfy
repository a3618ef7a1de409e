/** Option and Result, used for Python's None and for exceptions. */
module Wrappers {

  /** `None` stands for Python's None. */
  datatype Option<+T> = None | Some(value: T)

  /** `Err(msg)` stands for an exception that ends the operation; `msg` is its text. */
  datatype Result<+T> = Ok(value: T) | Err(msg: string)
}
