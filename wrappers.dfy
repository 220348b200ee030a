/** Option and Result, the two failure-carrying types the model uses. */
module Wrappers {

  datatype Option<+T> = None | Some(value: T)

  /** The outcome of validating or converting a value: the converted value,
      or the one message the failing step raised. */
  datatype Result<+T> = Ok(value: T) | Err(error: string)
}
