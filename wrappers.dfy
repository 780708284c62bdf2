/** Failure-carrying values: `Option` for JavaScript's "absent" results (undefined, NaN, null),
    `Result` for operations that either produce a value or throw. */
module Wrappers {

  datatype Option<+T> = None | Some(value: T)

  datatype Result<+T, +E> = Ok(value: T) | Err(error: E)
}
