/**
 Failure-carrying wrappers shared by the instrument model: an optional value
 (Python's `None` default arguments) and the outcome of a constructor that
 may raise.
 */
module Results {

  /** A value that may be absent, as an argument defaulting to `None`. */
  datatype Option<+T> = None | Some(value: T)

  /** Either a constructed value or the message of the raised exception. */
  datatype Result<+T> = Ok(value: T) | Err(message: string)
}
