/** Failure-carrying results and the Python exceptions the modelled code raises. */
module Wrappers {

  /** The exceptions raised by the modelled scripts, with the message or key they carry. */
  datatype Exception =
    | ValueError(message: string)
    | KeyError(key: string)

  datatype Option<+T> = None | Some(value: T)

  /** A computation that either returns a value or raises an exception. */
  datatype Result<+T> = Success(value: T) | Failure(error: Exception)

  /** A check that either passes or raises an exception. */
  datatype Outcome = Pass | Fail(error: Exception)
}
