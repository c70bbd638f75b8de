/** Swift's `Optional`. */
module Wrappers {

  /** `None` plays the part of `nil`. */
  datatype Option<+T> = None | Some(value: T)
}
