/** The optional value used wherever the JavaScript code has `null`/`undefined` or a missing entry. */
module Wrappers {
  datatype Option<+T> = None | Some(value: T)
}
