/** Option and Result: the model's stand-ins for Go's nil-able values and
    its (value, error) return pairs. */
module Wrappers {

  datatype Option<+T> = None | Some(value: T)

  datatype Result<+T, +E> = Ok(value: T) | Err(error: E)
}
