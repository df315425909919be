/** Failure-carrying values used across the model: `Option` stands for a
    pointer that may be null or a conversion that may fail, `Result` for an
    operation that may throw. */
module Wrappers {

  datatype Option<+T> = None | Some(value: T)

  datatype Result<+R, +E> = Ok(value: R) | Err(error: E)
}
