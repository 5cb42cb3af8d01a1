/** An optional value: JavaScript's `null` / `undefined` next to a present one. */
module Wrappers {

  datatype Option<T> = None | Some(value: T)
}
