/** Optional values and results with an error message, used where the
    TypeScript code returns `undefined` or throws an `Error`. */
module Wrappers {

  datatype Option<+T> = None | Some(value: T)

  /** `Err(message)` models a thrown `Error` with that message. */
  datatype Result<+T> = Ok(value: T) | Err(message: string)
}
