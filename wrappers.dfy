/** Small result types shared by the whole model. */
module Wrappers {

  /** A value that may be absent, as Python's `None`. */
  datatype Option<+T> = None | Some(value: T)

  /** The outcome of a Python call that either returns a value or lets a
      `ValueError` escape to its caller. */
  datatype Outcome<+T> = Ok(value: T) | ValueError
}
