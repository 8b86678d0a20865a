/** Optional values and fallible results, used for the source's `undefined`/`null` fields and thrown errors. */
module Wrappers {

  /** A value that may be absent (`undefined` or `null` in the source). */
  datatype Option<+T> = None | Some(value: T)

  /** The outcome of a call that either returns a value or throws with a message. */
  datatype Result<+T> = Ok(value: T) | Err(message: string)
}
