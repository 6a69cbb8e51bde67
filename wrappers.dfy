/** Failure-carrying values shared by the other modules. */
module Wrappers {

  /** A value that may be absent. */
  datatype Option<+T> = None | Some(value: T)

  /** The outcome of a Python call that either returns `value` or raises an
      exception whose `str(e)` is `message`. */
  datatype Result<+T> = Ok(value: T) | Fail(message: string)
}
