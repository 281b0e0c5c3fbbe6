/**
 * Outcomes of the scaffolding operations: a value, or the exception the PHP code
 * throws. Exceptions carry their message and the exception they chain as
 * "previous", so wrapping can be stated.
 */
module Outcomes {

  datatype Option<+T> = None | Some(value: T)

  /** The exception classes the core throws or lets through. */
  datatype Error =
    | InvalidArgument(message: string, previous: Option<Error>)  // \InvalidArgumentException
    | Runtime(message: string, previous: Option<Error>)          // \RuntimeException
    | Logic(message: string, previous: Option<Error>)            // \LogicException
    | TwigError(message: string)                                 // a Twig_Error raised while rendering
    | EmptyStringOffset                                          // PHP 8's Error "Cannot assign an empty string to a string offset"

  datatype Result<+T> = Ok(value: T) | Err(error: Error)

  /** The outcome of a PHP method that returns nothing: it returned, or it threw. */
  datatype Outcome = Pass | Fail(error: Error)
}
