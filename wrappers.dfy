/** Option and Result, and the Python exceptions the propagator raises or runs into. */
module Wrappers {

  datatype Option<+T> = None | Some(value: T)

  datatype Result<+T, +E> = Ok(value: T) | Err(error: E)

  /** The exceptions a propagation call can end with. */
  datatype Exception =
    | ValueError(message: string)        // raised explicitly by the propagator
    | AttributeError(attribute: string)  // the named attribute was read on None
    | IndexError                         // a list index out of range
    | TypeError(message: string)         // a call with a keyword the callee does not take
    | InsertError(existingName: string)  // the engine chain has no element of that name
}
