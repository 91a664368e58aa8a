/** The HTTP errors the endpoints raise, and the outcome of the bearer-token check. */
module Http {

  datatype Detail =
    | Message(text: string)
    | ValidationErrors(errors: seq<string>)   // the validation error list, by field

  datatype HttpError = HttpError(status: nat, detail: Detail, headers: seq<(string, string)>)

  /**
   * The `get_current_user` dependency, which is not part of this model: either it
   * admits the request or it raises its own error before the endpoint runs.
   */
  datatype Guard = Admitted | Refused(error: HttpError)

  /** An exception no handler catches: the framework answers 500. */
  const InternalServerError := HttpError(500, Message("Internal Server Error"), [])

  /** Request validation of one field failed. */
  function Unprocessable(field: string): HttpError {
    HttpError(422, ValidationErrors([field]), [])
  }
}
