/** Option and Result types used by the route engine. */
module Wrappers {

  /** A value that may be absent: JavaScript's `null` / `undefined`. */
  datatype Option<+T> = None | Some(value: T)

  /** Either a value or a typed failure reason (the engine's thrown errors). */
  datatype Result<+T, +E> = Ok(value: T) | Err(error: E)
}
