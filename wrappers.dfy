/** Small value wrappers shared by the other modules. */
module Wrappers {
  /** A value that may be absent; models Ruby's `nil`. */
  datatype Option<+T> = None | Some(value: T)
}
