/**
 * Nullable values, results that may carry an exception, and the exceptions
 * the modelled constructors and parsers throw.
 */
module Wrappers {

  /** A Java reference that may be null. */
  datatype Option<+T> = None | Some(value: T)

  /** The outcome of a constructor or parser that may throw. */
  datatype Result<+T> = Success(value: T) | Failure(error: Error)

  /** The exceptions the modelled code throws. */
  datatype Error =
    | IllegalArgument(message: string)  // java.lang.IllegalArgumentException
    | NumberFormat                      // java.lang.NumberFormatException
    | NullPointer                       // java.lang.NullPointerException
    | Io                                // java.io.IOException from the JSON binding
}
