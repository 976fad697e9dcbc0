/** Option and Result, standing for Go's nil-able values and (value, error) pairs. */
module Wrappers {

  datatype Option<+T> = None | Some(value: T)

  datatype Result<+R, +E> = Ok(value: R) | Err(error: E)

  /** Go's `error`, carried only for identity: the model never inspects it. */
  type Error = string
}
