/** Option and Result types, and the exceptions the modelled code throws. */
module Wrappers {

  datatype Option<+T> = None | Some(value: T)

  /** The two exception families the core raises: ArgumentException (with its subclass
      ArgumentOutOfRangeException) and NotImplementedException. */
  datatype Error =
    | ArgumentException(message: string)
    | NotImplementedException(message: string)

  /** A computation that either yields a value or throws. */
  datatype Result<+T> = Success(value: T) | Failure(error: Error)
}
