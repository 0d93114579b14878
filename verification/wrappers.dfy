/** Failure-compatible helper datatype shared by the other modules. */
module Wrappers {

  /** A value that may be absent: the outcome of a conversion or lookup that can fail. */
  datatype Option<+T> = None | Some(value: T)
}
