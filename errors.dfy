/** Translation of the exceptions raised by a chat-completion call into
    ModelProviderError (the `except` clauses of Groq.invoke, ainvoke,
    invoke_stream and ainvoke_stream, which are the same in all four). */
module Errors {
  import opened Values

  datatype HttpResponse = HttpResponse(statusCode: int, text: string)

  /** What a call can raise, in the order the handlers test it:
      APIResponseValidationError and APIStatusError carry the HTTP response;
      any other APIError carries a message; anything else is known by
      `str(e)`. */
  datatype Raised =
    | ResponseValidationError(response: HttpResponse)
    | StatusError(response: HttpResponse)
    | ApiError(message: string)
    | Unexpected(text: string)

  /** agno.exceptions.ModelProviderError; a `statusCode` of None leaves the
      constructor's default in place. */
  datatype ModelProviderError = ModelProviderError(message: string, statusCode: Option<int>,
                                                   modelName: string, modelId: string)

  function Translate(e: Raised, modelName: string, modelId: string): (r: ModelProviderError)
    ensures r.modelName == modelName && r.modelId == modelId
    // an HTTP status is kept exactly when the provider answered
    ensures r.statusCode.Some? <==> e.ResponseValidationError? || e.StatusError?
    ensures r.statusCode.Some? ==> r.statusCode.value == e.response.statusCode && r.message == e.response.text
    // otherwise the text of the error is kept
    ensures e.ApiError? ==> r.message == e.message
    ensures e.Unexpected? ==> r.message == e.text
  {
    match e
    case ResponseValidationError(response) => ModelProviderError(response.text, Some(response.statusCode), modelName, modelId)
    case StatusError(response) => ModelProviderError(response.text, Some(response.statusCode), modelName, modelId)
    case ApiError(message) => ModelProviderError(message, None, modelName, modelId)
    case Unexpected(text) => ModelProviderError(text, None, modelName, modelId)
  }

  /** A rate-limit answer keeps its status and its body. */
  lemma RateLimitIsKept(modelName: string, modelId: string)
    ensures Translate(StatusError(HttpResponse(429, "rate limited")), modelName, modelId)
            == ModelProviderError("rate limited", Some(429), modelName, modelId)
  {
  }
}
