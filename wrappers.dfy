/** Optional values and results, standing for Python's `None` and for raised exceptions. */
module Wrappers {

  datatype Option<+T> = None | Some(value: T)

  datatype Result<+T, +E> = Ok(value: T) | Err(error: E)

  /** Python truthiness of an optional string: `None` and `""` are both falsy. */
  predicate Present(s: Option<string>)
  {
    s.Some? && s.value != ""
  }
}
