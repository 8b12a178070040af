/** The values the services throw. The source throws instances of Error
    subclasses and the controllers tell them apart with `instanceof`; the
    model makes that a closed set of variants. */
module Errors {

  datatype Failure =
      /** `ApplicationNotFoundError` (src/services/ApplicationService.ts). */
    | ApplicationNotFoundError(message: string)
      /** `InvalidApplicationStatusError`. */
    | InvalidApplicationStatusError(message: string)
      /** `NoOpenPositionsError`. */
    | NoOpenPositionsError(message: string)
      /** `ValidationError` thrown by registration. */
    | ValidationError(message: string)
      /** `ConflictError` thrown by registration. */
    | ConflictError(message: string)
      /** Any other instance of Error: the plain `new Error(...)` of the
          services, and the errors of the database client. */
    | PlainError(message: string)
      /** A thrown value that is not an Error at all. */
    | NonError

  /** `err instanceof Error`. */
  predicate IsError(f: Failure) {
    !f.NonError?
  }

}
