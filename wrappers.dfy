/** Optional values and results, the shapes the model uses for JavaScript's
    null/undefined and for thrown errors. */
module Wrappers {
  datatype Option<T> = None | Some(value: T)

  datatype Result<T, E> = Ok(value: T) | Err(error: E)
}
