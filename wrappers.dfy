/** Failure-carrying values shared by the other modules. */
module Wrappers {
  import opened Bytes

  datatype Option<+T> = None | Some(value: T)

  /** A value, or the text of the Go `error` returned in its place. */
  datatype Result<+T> = Ok(value: T) | Err(err: Bytes)
}
