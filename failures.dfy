/** The typed failures raised by the functional algebra and the solvers. */
module Failures {

  /** The exception classes of the source, by their Python names. */
  datatype Error =
    | TypeError            // wrong space, or an operand of the wrong kind
    | ValueError           // a zero or non-positive scaling where one is not allowed
    | NotImplementedError  // no closed form (prox or conjugate of a sum, ...)
    | DomainError          // a point that is not an element of the functional's domain

  /** A value or the error that was raised instead; usable with `:-`. */
  datatype Result<+T> = Ok(value: T) | Err(error: Error) {
    predicate IsFailure() { Err? }

    function PropagateFailure<U>(): Result<U>
      requires Err?
    {
      Err(error)
    }

    function Extract(): T
      requires Ok?
    {
      value
    }
  }

  /** The outcome of a call made for its effect. */
  datatype Outcome = Pass | Fail(error: Error)
}
