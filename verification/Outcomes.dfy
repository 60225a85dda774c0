/** Optional values and results that may be refusals. */
module Outcomes {
  datatype Option<+T> = None | Some(value: T)

  /** A refusal stands for the exception or error value of the source. */
  datatype Result<+T> = Ok(value: T) | Err(message: string)
}
