/** A value that may be absent: a Python `None` or a missing dictionary key. */
module Wrappers {
  datatype Option<+T> = None | Some(value: T)
}
