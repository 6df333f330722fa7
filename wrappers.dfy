/** Wrappers standing in for Rust's Option, Result and
    LuaResult<()>. */
module Wrappers {

  datatype Option<+T> = None | Some(value: T)

  datatype Result<+T, +E> = Ok(value: T) | Err(error: E)

  /** The outcome of an operation that returns `Result<()>`: `Pass` is `Ok(())`. */
  datatype Outcome<+E> = Pass | Fail(error: E)
}
