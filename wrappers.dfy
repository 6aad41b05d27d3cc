/** Optional values and success-or-error results, used for the source's
    `undefined` / missing values and for its thrown errors. */
module Wrappers {

  datatype Option<+T> = None | Some(value: T)

  datatype Result<+T, +E> = Ok(value: T) | Err(error: E)
}
