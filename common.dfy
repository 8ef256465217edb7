/** Shared value wrappers used across the model. */
module Common {

  /** A value that may be absent: Python's `None`, pandas' `NaT`. */
  datatype Option<+T> = None | Some(value: T)
}
