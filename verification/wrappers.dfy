/** An optional value, for components an entity may lack. */
module Wrappers {
  datatype Option<T> = None | Some(value: T)
}
