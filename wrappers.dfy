/** The optional value used where the extension returns `null` or omits a field. */
module Wrappers {
  datatype Option<+T> = None | Some(value: T)
}
