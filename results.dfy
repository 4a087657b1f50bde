/** Option and Result values, and the Python exceptions the modelled code can raise. */
module Results {

  datatype Option<+T> = None | Some(value: T)

  /** The exception a Python call ends with, named after its Python class. */
  datatype Error =
    | KeyError(key: string)
    | ValueError(reason: string)
    | TypeError(reason: string)
    | IndexError(reason: string)
    | AttributeError(name: string)
    | AssertionError(message: string)
    | RuntimeError(reason: string)

  datatype Result<+T> = Ok(value: T) | Err(error: Error)
}
