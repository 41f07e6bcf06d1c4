/** Option and Result, the two failure-carrying shapes the modelled code
    uses: Rust's `Option`/`Result` and the `unwrap_or` defaults of the
    request handlers. */
module Wrappers {

  datatype Option<+T> = None | Some(value: T) {
    /** The value, or `default` when there is none (Rust `unwrap_or`). */
    function GetOr(default: T): T {
      match this
      case Some(v) => v
      case None => default
    }
  }

  datatype Result<+T, +E> = Ok(value: T) | Err(error: E)
}
