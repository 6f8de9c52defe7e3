/** A value that may be absent: the JavaScript `null` of an unset setting or an empty upload slot. */
module Wrappers {
  datatype Option<+T> = None | Some(value: T)
}
