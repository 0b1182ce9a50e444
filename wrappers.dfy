/** Option and Result values used across the model. */
module Wrappers {

  datatype Option<+T> = None | Some(value: T)

  /** The exceptions the modelled Python code can raise, by class. */
  datatype PyError =
    | KeyError(key: string)
    | TypeError
    | IndexError
    | ValueError
    | DecodeError
    | AssertionError
    /** Raised by a helper or service that is not part of this model. */
    | External

  datatype Result<+R> = Ok(value: R) | Err(error: PyError)
}
