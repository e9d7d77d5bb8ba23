/** The optional value that stands for Go's `*AuthInfo`: `None` is a nil pointer. */
module Wrappers {
  datatype Option<+T> = None | Some(value: T)
}
