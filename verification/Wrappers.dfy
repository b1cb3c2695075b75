/** A value that may be missing (`None` in the source). */
module Wrappers {
  datatype Option<+T> = None | Some(value: T)
}
