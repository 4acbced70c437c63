/** A value that may be absent: a DOM element that may not exist, a ref that may be unset. */
module Wrappers {
  datatype Option<+T> = None | Some(value: T)
}
