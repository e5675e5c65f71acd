/** Option and Result, the value-level stand-ins for Java's null and thrown exceptions. */
module Wrappers {

  datatype Option<+T> = None | Some(value: T)

  /** A call either returns a value or throws; the thrown value is the error. */
  datatype Result<+T, +E> = Ok(value: T) | Err(error: E)
}
