/** The optional value used for loaded images that may be absent. */
module Wrappers {
  datatype Option<+T> = None | Some(value: T)
}
