/** Rust's `Option`, used for every optional capture and optional segment. */
module Wrappers {

  datatype Option<+T> = None | Some(value: T)
}
