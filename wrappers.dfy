/** Optional values and results: the library's `optional<T>` and the
    "returns a value or throws" shape of its operations. */
module Wrappers {

  datatype Option<T> = None | Some(value: T)

  /** A value, or the failure that the library would throw instead. */
  datatype Result<T, E> = Ok(value: T) | Err(error: E)
}
