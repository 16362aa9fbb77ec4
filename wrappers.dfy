/** The optional value used wherever the source returns `null` or a `false` from a `TryParse`. */
module Wrappers {
  datatype Option<+T> = None | Some(value: T)
}
