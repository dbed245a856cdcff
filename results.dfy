/** Failure-carrying values: the exceptions the lifecycle code raises, and the
    Option used where a Python lookup yields None. */
module Results {

  datatype Option<+T> = None | Some(value: T)

  /** The Python exception classes the modelled code can raise. */
  datatype Exception =
    | ValueError(message: string)
    | KeyError(key: string)
    | TypeError(message: string)

  /** Either a value or the exception that was raised instead. */
  datatype Result<+T> = Ok(value: T) | Raise(exc: Exception)
}
