/** The optional value used for the lazily created singleton. */
module Wrappers {
  datatype Option<+T> = None | Some(value: T)
}
