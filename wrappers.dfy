/** The optional value used for outcomes that may be absent (a panic, a parse failure). */
module Wrappers {
  datatype Option<T> = None | Some(value: T)
}
