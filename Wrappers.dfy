/** A value that may be missing: an absent or null JSON field, or a parse that did not succeed. */
module Wrappers {
  datatype Option<+T> = None | Some(value: T)
}
