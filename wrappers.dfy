/**
 * Optional values and results. `Option` stands for the Java references the
 * model has to treat as nullable; `Result` for a lookup that either yields a
 * value or fails with an error.
 */
module Wrappers {

  datatype Option<+T> = None | Some(value: T)

  datatype Result<+T, +E> = Ok(value: T) | Err(error: E)
}
