/** Option, as the Rust source uses it. */
module Wrappers {
  datatype Option<T> = None | Some(value: T)
}
