/** Wrappers shared by the modules of the model. */
module Wrappers {

  /** A value that may be absent: Python's `None`, a missing dictionary key. */
  datatype Option<+T> = None | Some(value: T)

  /** The outcome of a request handler: results, or the error message it shows. */
  datatype Result<+R> = Ok(value: R) | Err(message: string)
}
