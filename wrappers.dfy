/** Rust's `Option`, the result type of `Iterator::next`. */
module Wrappers {

  datatype Option<+T> = None | Some(value: T)
}
