/** Field-level validation errors (what a schema reports for bad input) and
    the error responses the HTTP layer sends. */
module Errors {

  /** Why one field of an input record was rejected. */
  datatype ErrorKind =
    | Missing                      // a required field is absent
    | StringTooShort(minLength: nat)
    | LiteralMismatch              // not one of the allowed literal values
    | LessThanBound(ge: real)      // below an inclusive lower bound
    | GreaterThanBound(le: real)   // above an inclusive upper bound
    | ValueError(message: string)  // raised by a custom field validator

  datatype FieldError = FieldError(field: string, kind: ErrorKind)

  /** An error answer: an explicit HTTP exception, or request-body
      validation failure (always status 422). */
  datatype ErrorResponse =
    | HttpException(code: int, detail: string)
    | RequestValidationError(errors: seq<FieldError>)
  {
    function Status(): int {
      if HttpException? then code else 422
    }
  }
}
