/**
 * Optional values (Java's null, TypeScript's null/undefined) and the outcomes of
 * operations that throw in the source.
 */
module Wrappers {

  /** A value that may be absent: `null` in the Java entities, `null`/`undefined` in the frontend. */
  datatype Option<+T> = None | Some(value: T) {
    function GetOr(default: T): T {
      match this
      case Some(v) => v
      case None => default
    }
  }

  /** The exceptions the backend services throw. */
  datatype Error =
    | ResourceNotFound(message: string)   // ResourceNotFoundException
    | IllegalArgument(message: string)    // IllegalArgumentException
    | DivisionByZero                      // ArithmeticException from BigDecimal.divide by zero
    | InvalidRequest(message: string)     // a request body rejected by bean validation

  /** A service call either returns a value or throws one of the exceptions above. */
  datatype Result<+T> = Success(value: T) | Failure(error: Error)
}
