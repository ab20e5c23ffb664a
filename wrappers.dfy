/** Optional values, standing in for Rust's `Option` and for the `Ok` branch of a `Result`. */
module Wrappers {

  datatype Option<+T> = None | Some(value: T)
}
