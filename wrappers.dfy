/** Optional values and failures shared by the modules of this model. */
module Wrappers {

  /** A value that may be absent: JavaScript's `null`/`undefined` result. */
  datatype Option<T> = None | Some(value: T)

  /** The result of an operation that can throw: `Ok` carries the value, `Err` the error message. */
  datatype Result<T> = Ok(value: T) | Err(message: string)
}
