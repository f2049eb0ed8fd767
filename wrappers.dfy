/** Small result types shared by every module of the model. */
module Wrappers {

  /** A value that may be absent (Go's nil, a missing map key, a `-1` index). */
  datatype Option<+T> = None | Some(value: T)

  /** The outcome of Go code that either returns a value or panics: a failed
      type assertion, an index out of range, or an explicit `panic`. */
  datatype Outcome<+T> = Ok(value: T) | Panic(reason: string)
}
