/** The optional value used where the source lets a reference be null. */
module Wrappers {
  datatype Option<+T> = None | Some(value: T)
}
