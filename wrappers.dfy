/** Option and Result values for the references that may be null and the
    operations that throw in the modelled program. */
module Wrappers {

  datatype Option<+T> = None | Some(value: T)

  datatype Result<+T, +E> = Ok(value: T) | Err(error: E)
}
