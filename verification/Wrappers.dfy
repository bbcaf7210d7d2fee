/** A value that may be absent: a NULL column, a missing argument, a key not found. */
module Wrappers {
  datatype Option<+T> = None | Some(value: T)
}
