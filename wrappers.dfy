/** A value that may be absent: JavaScript's `null` for an object reference. */
module Wrappers {

  datatype Option<+T> = None | Some(value: T)
}
