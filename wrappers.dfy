/** Optional values and error results, for the places where the source
    returns `undefined`, `null`, `NaN` or an HTTP error instead of a value. */
module Wrappers {

  datatype Option<+T> = None | Some(value: T)

  datatype Result<+T, +E> = Ok(value: T) | Err(error: E)
}
