/** The optional value used for nullable selections and callbacks that may not fire. */
module Wrappers {
  datatype Option<+T> = None | Some(value: T)
}
