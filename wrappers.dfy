/** Option and Result values for lookups that may miss and operations that may raise. */
module Wrappers {
  datatype Option<T> = None | Some(value: T)

  /** The exceptions the report computation can raise on malformed input. */
  datatype Failure = IndexError

  datatype Result<T> = Ok(value: T) | Err(error: Failure)
}
