/** Option and Result, the two failure-carrying values the rest of the model uses. */
module Wrappers {

  datatype Option<+T> = None | Some(value: T)

  /** The outcome of a step that either produces a value or ends the request
      with an HTTP status code and a message. */
  datatype Result<+T> = Ok(value: T) | Err(code: int, msg: string)

  /** Flask's answer to an exception nobody catches. */
  const InternalError := "Internal Server Error"
}
