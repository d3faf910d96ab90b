/** Failure-carrying result types shared by the model's modules. */
module Wrappers {

  datatype Option<+T> = None | Some(value: T)

  /** What a Python function either returns (`Ok`) or raises (`Err`). */
  datatype Result<+T, +E> = Ok(value: T) | Err(error: E)
}
