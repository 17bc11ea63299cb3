/** Optional values and results with an error message, used for the source's
    `null` fields and its thrown errors. */
module Wrappers {

  /** A value that may be absent: JavaScript's `null` (or `undefined`). */
  datatype Option<+T> = None | Some(value: T)

  /** A value, or the message of the error the source throws instead. */
  datatype Result<+T> = Ok(value: T) | Err(message: string)
}
