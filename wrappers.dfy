/** A value that may be absent: Java's nullable references. */
module Wrappers {
  datatype Option<T> = None | Some(value: T)
}
