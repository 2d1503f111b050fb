/** Option and Result values for lookups that can fail and for operations
    that report an error instead of a value. */
module Wrappers {

  datatype Option<T> = None | Some(value: T)

  datatype Result<T, E> = Ok(value: T) | Err(error: E)
}
