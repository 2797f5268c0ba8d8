/** Failure-carrying datatypes shared by the crawler and the extraction pass. */
module Wrappers {

  datatype Option<+T> = None | Some(value: T)

  datatype Result<+T, +E> = Ok(value: T) | Err(error: E)
}
