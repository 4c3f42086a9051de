/** The optional value an iterator step produces (Rust's `Option`). */
module Wrappers {
  datatype Option<+T> = None | Some(value: T)
}
