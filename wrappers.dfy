/** An optional value, used where the engine's result omits an entry. */
module Wrappers {
  datatype Option<+T> = None | Some(value: T)
}
