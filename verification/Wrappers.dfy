/** Result types for the source's nil pointers, error returns and run-time panics. */
module Wrappers {

  datatype Option<+T> = None | Some(value: T)

  datatype Result<+T> = Ok(value: T) | Err(message: string)

  /** How a Go call ends: normally, or with a run-time panic (nil map write, nil dereference). */
  datatype Outcome = Returned | Panicked
}
