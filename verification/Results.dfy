module Results {
  /** A result, or the message of the exception thrown instead. */
  datatype Result<+T> = Ok(value: T) | Err(message: string)
}
