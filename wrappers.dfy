/** Option and Result values: absent keys and the source's raised exceptions. */
module Wrappers {
  datatype Option<+T> = None | Some(value: T)

  /** The Python exceptions the modelled code raises on bad input. */
  datatype PyError =
    | ValueError(message: string)
    | KeyError(key: string)
    | ZeroDivisionError
    | TypeError(message: string)

  datatype Result<+T> = Ok(value: T) | Err(error: PyError)
}
