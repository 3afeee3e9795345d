/** Small failure-carrying datatypes shared by the whole model. */
module Wrappers {

  /** A value that may be missing: JavaScript's `undefined`/`null` where the source uses it as "no value". */
  datatype Option<+T> = None | Some(value: T)

  /** The result of an operation that can fail with a message. */
  datatype Result<+T> = Ok(value: T) | Err(error: string)
}
