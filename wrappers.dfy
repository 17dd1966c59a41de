/** Small failure-carrying datatypes shared by the whole model. */
module Wrappers {

  /** A value that may be absent (Python's `None`). */
  datatype Option<+T> = None | Some(value: T)

  /** How a Python call that returns nothing ends: it returns normally, or it raises `error`. */
  datatype Outcome<+E> = Pass | Fail(error: E)
}
