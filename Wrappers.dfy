/** Option and Result values for the error paths of the modelled code. */
module Wrappers {

  datatype Option<+T> = None | Some(value: T)

  /** Either a value or the message of the exception that would have been raised. */
  datatype Result<+T> = Ok(value: T) | Err(message: string)

  /** Whether a call that returns nothing completed or raised. */
  datatype Outcome = Pass | Fail(message: string)
}
