/**
 * Errors, error messages and status codes shared by the models
 * (src/models/errors.ts and the ValidationError class of src/models/payload.ts).
 */
module Errors {

  // Status codes (src/models/errors.ts:12-15; src/app.ts:13-15 declares 200, 404 and 500 again).
  const CodeOk := 200
  const CodeBadRequest := 400
  const CodeNotFound := 404
  const CodeInternalError := 500

  // Validation messages. src/models/webhook.ts imports them from errors.ts, which does not
  // declare them; the values are the ones the test suite expects.
  const UrlRequiredMessage := "URL is required"
  const UrlEmptyMessage := "URL cannot be empty"
  const UrlInvalidMessage := "URL format is invalid"
  const TokenRequiredMessage := "Token is required"
  const TokenEmptyMessage := "Token cannot be empty"
  const PayloadRequiredMessage := "Payload is required"

  /** A thrown JavaScript error: its `name` and its `message`. */
  datatype Error = Error(name: string, message: string)

  /** `new ValidationError(message)`: an error that keeps the message and is named "ValidationError". */
  function ValidationError(message: string): (e: Error)
    ensures e.message == message
    ensures IsValidationError(e)
  {
    Error("ValidationError", message)
  }

  predicate IsValidationError(e: Error) {
    e.name == "ValidationError"
  }
}
