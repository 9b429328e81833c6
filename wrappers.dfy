/** Failure-carrying wrappers shared by every module of the model. */
module Wrappers {

  /** A value that may be absent: C#'s nullable references and Python's `None`. */
  datatype Option<+T> = None | Some(value: T)

  /** The outcome of an operation that the source lets throw: `Err` carries the exception's message. */
  datatype Result<+T> = Ok(value: T) | Err(message: string)
}
