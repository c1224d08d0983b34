/** Option and Result values used for JavaScript's null results and thrown errors. */
module Wrappers {

  datatype Option<+T> = None | Some(value: T)

  /** A computation that either returns a value or throws an Error whose message is `error`. */
  datatype Result<+T> = Ok(value: T) | Err(error: string)
}
