/** Option and Result, the two failure-carrying shapes the Rust code returns. */
module Wrappers {

  datatype Option<+T> = None | Some(value: T)

  /** `anyhow::Result`: a value, or an error carrying its message. */
  datatype Result<+T> = Ok(value: T) | Err(message: string)
}
