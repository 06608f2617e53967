/** The optional result of a lookup: a value, or absent. */
module Wrappers {
  datatype Option<+T> = None | Some(value: T)
}
