/** The optional value used wherever the source has `null`, `undefined` or an empty string. */
module Wrappers {
  datatype Option<+T> = None | Some(value: T)
}
