/** Option and Result, the failure-carrying values used throughout the model. */
module Wrappers {

  datatype Option<+T> = None | Some(value: T)

  /** The value of an asynchronous step: what it resolved to, or the message of the error it threw. */
  datatype Result<+R> = Ok(value: R) | Err(message: string)
}
