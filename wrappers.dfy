/** Failure-carrying values shared by every module of the model. */
module Wrappers {

  /** JavaScript's `null`/`undefined` versus a present value. */
  datatype Option<+T> = None | Some(value: T)

  /** An awaited call that either resolves with a value or rejects with an error message. */
  datatype Result<+T> = Ok(value: T) | Err(message: string)
}
