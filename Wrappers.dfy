/** Go's nilable error results, as an option type. */
module Wrappers {

  /** `None` plays the part of Go's `nil`. */
  datatype Option<+T> = None | Some(value: T)
}
