/** The request helpers of the tourist app (tourist-app/src/api.ts): every
    failure of the HTTP client is turned into one `ApiError` shape. The
    client itself is not modelled; its outcome is an input. */
module Api {
  import opened Wrappers

  /** The body of an error response, as far as the classifier reads it. */
  datatype ResponseData = ResponseData(message: Option<string>)

  /** How a request failed: the server answered with a status, no answer
      came back, or the request could not be set up. */
  datatype ClientError =
    | WithResponse(status: int, data: ResponseData, errorMessage: Option<string>)
    | NoResponse(errorMessage: Option<string>)
    | SetupFailed(errorMessage: Option<string>)

  /** `ApiError`. */
  datatype ApiError = ApiError(message: string, status: Option<int>, details: Option<ResponseData>)

  const NoResponseText := "No response from server. Please check your network connection."
  const UnknownServerText := "An unknown server error occurred."
  const SetupText := "An error occurred while setting up the request."

  /** A present, non-empty string (JavaScript truthiness of a string). */
  predicate TruthyText(s: Option<string>) {
    s.Some? && s.value != ""
  }

  /** `handleApiError`. With a response: the body's message, else the
      error's own message, else a default, together with the status and
      the body. Without a response: the fixed network message. Otherwise:
      the error's message or the set-up default. Only the first case has a
      status. */
  function HandleApiError(error: ClientError): (r: ApiError)
    ensures r.status.Some? <==> error.WithResponse?
    ensures r.details.Some? <==> error.WithResponse?
    ensures error.WithResponse? ==> r.status.value == error.status && r.details.value == error.data
    ensures error.WithResponse? && TruthyText(error.data.message) ==> r.message == error.data.message.value
    ensures error.WithResponse? && !TruthyText(error.data.message) && TruthyText(error.errorMessage) ==>
              r.message == error.errorMessage.value
    ensures error.WithResponse? && !TruthyText(error.data.message) && !TruthyText(error.errorMessage) ==>
              r.message == UnknownServerText
    ensures error.NoResponse? ==> r.message == NoResponseText
    ensures error.SetupFailed? && TruthyText(error.errorMessage) ==> r.message == error.errorMessage.value
    ensures error.SetupFailed? && !TruthyText(error.errorMessage) ==> r.message == SetupText
  {
    match error
    case WithResponse(status, data, errorMessage) =>
      var message := if TruthyText(data.message) then data.message.value
                     else if TruthyText(errorMessage) then errorMessage.value
                     else UnknownServerText;
      ApiError(message, Some(status), Some(data))
    case NoResponse(_) =>
      ApiError(NoResponseText, None, None)
    case SetupFailed(errorMessage) =>
      ApiError(if TruthyText(errorMessage) then errorMessage.value else SetupText, None, None)
  }

  /** Whatever went wrong, the caller is handed a non-empty message. */
  lemma ApiErrorHasMessage(error: ClientError)
    ensures HandleApiError(error).message != ""
  {
    assert UnknownServerText != "" && NoResponseText != "" && SetupText != "";
  }

  /** `get`, `post`, `put` and `del` share one contract: the response data on
      success, exactly `handleApiError` of the client's error on failure. */
  function Request<T>(outcome: Result<T, ClientError>): (r: Result<T, ApiError>)
    ensures r.Ok? <==> outcome.Ok?
    ensures outcome.Ok? ==> r.value == outcome.value
    ensures outcome.Err? ==> r.error == HandleApiError(outcome.error) && r.error.message != ""
  {
    if outcome.Ok? then Ok(outcome.value)
    else
      ApiErrorHasMessage(outcome.error);
      Err(HandleApiError(outcome.error))
  }
}
