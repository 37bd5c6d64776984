/** Optional values and results that carry Go's `error` as its message. */
module Wrappers {

  datatype Option<+T> = None | Some(value: T)

  /** A value, or the text of the Go `error` that replaced it. */
  datatype Result<+T> = Ok(value: T) | Err(error: string)
}
