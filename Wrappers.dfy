/** Option and Result, used for the Java null back-references and for
    the map parser's configuration errors. */
module Wrappers {
  datatype Option<+T> = None | Some(value: T)

  datatype Result<+T, +E> = Ok(value: T) | Err(error: E)
}
