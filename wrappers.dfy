/** Optional values and tagged success/error results, used wherever the
    source returns `None`, raises, or returns an `{"error": ...}` dictionary. */
module Wrappers {

  datatype Option<+T> = None | Some(value: T)

  datatype Result<+T, +E> = Ok(value: T) | Err(error: E)
}
