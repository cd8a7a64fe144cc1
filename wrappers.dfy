/** Option and Result, the two wrapper types the pager's Rust code returns. */
module Wrappers {

  datatype Option<+T> = None | Some(value: T)

  /** `anyhow::Result`: either a value, or a fatal I/O error that the caller propagates with `?`. */
  datatype Result<+T> = Ok(value: T) | Err
}
