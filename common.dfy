/** Option and Result, the two wrappers every other module uses. */
module Common {

  /** A value that may be missing (an attribute `hasattr` does not find, a key not yet set). */
  datatype Option<+T> = None | Some(value: T)

  /** The value of an operation, or the exception it raises. */
  datatype Result<+T, +E> = Ok(value: T) | Err(error: E)
}
