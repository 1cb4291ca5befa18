/** Optional values, the counterpart of Rust's `Option<T>`. */
module Wrappers {

  /** `None` or `Some(value)`. */
  datatype Option<+T> = None | Some(value: T)
}
