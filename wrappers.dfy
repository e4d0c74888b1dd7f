/** Option and Result values for the source's `None` and its raised exceptions. */
module Wrappers {

  datatype Option<+T> = None | Some(value: T)

  /** The exceptions the modelled Python code can raise, by their Python class. */
  datatype Error = KeyError | IndexError | TypeError | AttributeError

  datatype Result<+T> = Ok(value: T) | Err(error: Error)
}
