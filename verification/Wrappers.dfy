/** An optional value: a missing key, an absent answer. */
module Wrappers {
  datatype Option<T> = None | Some(value: T)
}
