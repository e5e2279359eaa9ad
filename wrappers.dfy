/** An optional value: JavaScript's `undefined` where a lookup may find nothing. */
module Wrappers {
  datatype Option<+T> = None | Some(value: T)
}
