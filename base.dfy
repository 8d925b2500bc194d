/** Option and Result: the model's stand-ins for Java's null and for thrown exceptions. */
module Base {

  /** A value that may be absent (Java null). */
  datatype Option<+T> = None | Some(value: T)

  /** A computation that either yields a value or fails with an exception message. */
  datatype Result<+T> = Ok(value: T) | Err(message: string)
}
