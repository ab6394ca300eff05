/** Failure-carrying results: `Option` for the source's `None` returns and
    `Result` for constructors that raise `ValueError`. */
module Wrappers {

  datatype Option<+T> = None | Some(value: T)

  /** `Err` carries the message the source would put in its exception. */
  datatype Result<+T> = Ok(value: T) | Err(message: string)
}
