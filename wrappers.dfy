/** Optional values and results with an error message, for the source's nullable
    references and thrown exceptions. */
module Wrappers {

  datatype Option<T> = None | Some(value: T)

  /** The exceptions the modelled code throws. */
  datatype Error =
    | IllegalArgument(message: string)   // IllegalArgumentException
    | IllegalState(message: string)      // IllegalStateException
    | OutOfBounds(message: string)       // StringIndexOutOfBounds / NoSuchElement
    | Uninitialized(message: string)     // reading a lateinit property before it is set

  datatype Result<T> = Ok(value: T) | Err(error: Error)

  /** The outcome of an operation that returns nothing but may throw. */
  datatype Outcome = Pass | Fail(error: Error)
}
