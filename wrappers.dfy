/** Option and Result values for the storefront model: a missing row or
    field, and a validation error raised in place of a cleaned value. */
module Wrappers {

  datatype Option<+T> = None | Some(value: T)

  datatype Result<+T, +E> = Ok(value: T) | Err(error: E)
}
