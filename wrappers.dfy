/** Option and Result datatypes used in place of `undefined` fields and thrown errors. */
module Wrappers {

  /** A value that may be absent, as an object field that may be missing. */
  datatype Option<+T> = None | Some(value: T)

  /** Either a computed value or the message of the error the computation raised. */
  datatype Result<+T> = Ok(value: T) | Err(message: string)
}
