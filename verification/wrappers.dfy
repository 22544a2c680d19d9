/** Optional values and the outcome of a call that either returns or throws. */
module Wrappers {

  /** A value that may be absent: JavaScript's `null`/`undefined` against a present value. */
  datatype Option<+T> = None | Some(value: T)

  /** What awaiting a promise yields: its value, or the `message` of the Error it rejects with. */
  datatype Outcome<+T> = Ok(value: T) | Err(message: string)
}
