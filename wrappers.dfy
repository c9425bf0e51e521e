/** Small failure-carrying datatypes shared by the whole model. */
module Wrappers {

  /** A value that may be absent: a row a query did not find, an optional file, an unset setting. */
  datatype Option<+T> = None | Some(value: T)

  /** Either a value or an error message. */
  datatype Result<+T> = Ok(value: T) | Err(error: string)
}
