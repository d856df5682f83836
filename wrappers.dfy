/** Option and Result, used for the fields a backend may leave out and for
    the errors a backend call or a property access may throw. */
module Wrappers {

  datatype Option<+T> = None | Some(value: T)

  datatype Result<+T, +E> = Ok(value: T) | Err(error: E)
}
