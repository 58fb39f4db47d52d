/** Option and Result, the shapes the model's operations return when the source
    can fail or find nothing, and the Python exceptions the back end raises. */
module Wrappers {

  datatype Option<+T> = None | Some(value: T)

  datatype Result<+T, +E> = Ok(value: T) | Err(error: E)

  /** The classes of the Python exceptions that the modelled code raises or
      catches; `LibraryError` stands for anything a foreign library raises. */
  datatype ExceptionKind =
    | ValueError
    | TypeError
    | IndexError
    | AttributeError
    | FileNotFoundError
    | HTTPException
    | LibraryError

  /** A raised exception: its class and `str(e)`. */
  datatype Exception = Exception(kind: ExceptionKind, message: string)
}
