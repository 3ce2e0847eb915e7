/** The optional value used where the source has a Swift optional (`NSError?`, a handler that may be nil). */
module Wrappers {
  datatype Option<+T> = None | Some(value: T)
}
