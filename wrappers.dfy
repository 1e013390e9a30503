/** Optional values and thrown-or-returned outcomes, shared by every module. */
module Wrappers {

  /** A JavaScript value that may be `undefined` (or absent from a JSON object). */
  datatype Option<+T> = None | Some(value: T)

  /** The outcome of a block that either returns a value or throws an `Error`
      whose `message` is the string carried by `Err`. */
  datatype Result<+T> = Ok(value: T) | Err(message: string)
}
