/** A value that may be absent: an undefined JavaScript property or variable. */
module Wrappers {
  datatype Option<+T> = None | Some(value: T)
}
