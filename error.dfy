/**
 * Structured error responses (valar/src/http/error.rs) and the error type
 * handlers and extractors fail with. An `AppError` is either an
 * `ErrorResponse` or any other error, of which only its display string is
 * observed (the `anyhow::Error` downcast in the matcher).
 */
module HttpError {
  import opened Wrappers
  import opened Strings
  import opened HttpTypes
  import opened HttpResponse
  import JsonText

  const DefaultErrorMessage: string := "Internal Server Error"

  datatype ErrorResponse = ErrorResponse(
    status: StatusCode,
    message: Option<string>,
    headers: Option<map<string, string>>)
  {
    function WithStatus(s: StatusCode): (e: ErrorResponse)
      ensures e.status == s && e.message == message && e.headers == headers
    {
      this.(status := s)
    }

    function WithMessage(m: string): (e: ErrorResponse)
      ensures e.message == Some(m) && e.status == status && e.headers == headers
    {
      this.(message := Some(m))
    }

    function WithHeaders(h: map<string, string>): (e: ErrorResponse)
      ensures e.headers == Some(h) && e.status == status && e.message == message
    {
      this.(headers := Some(h))
    }

    /** The message sent to the client: the one set, else the default. */
    function Message(): (m: string)
      ensures message.Some? ==> m == message.value
      ensures message.None? ==> m == DefaultErrorMessage
    {
      message.UnwrapOr(DefaultErrorMessage)
    }

    function CustomHeaders(): map<string, string> {
      headers.UnwrapOr(map[])
    }

    /**
     * `to_json_response`: the error status, the custom headers with
     * Content-Type forced to `application/json` (the builder's `json_or`
     * inserts it after the custom headers), and `{"message": ...}` as body.
     */
    function ToJsonResponse(): (r: Response)
      ensures r.status == status && r.version == HTTP_11
      ensures r.headers.Keys == CustomHeaders().Keys + {"Content-Type"}
      ensures r.headers["Content-Type"] == "application/json"
      ensures forall k :: k in CustomHeaders() && k != "Content-Type" ==> r.headers[k] == CustomHeaders()[k]
      ensures JsonText.ParseMessageBody(r.body) == Some(Message())
    {
      var merged := map["Content-Type" := "application/json"] + CustomHeaders();
      JsonText.ParseMessageBodyRoundTrip(Message());
      NewBuilder()
        .Status(status)
        .Headers(merged)
        .JsonOr(Result.Ok(JsonText.MessageBody(Message())), "")
        .Build()
    }

    /** `to_response`: the error status, the custom headers and the plain message. */
    function ToResponse(): (r: Response)
      ensures r.status == status && r.version == HTTP_11
      ensures r.headers == CustomHeaders() && r.body == Message()
    {
      NewBuilder().Status(status).Headers(CustomHeaders()).Body(Message()).Build()
    }
  }

  /** `ErrorResponse::default()`: 500 with neither message nor headers. */
  function NewErrorResponse(): (e: ErrorResponse)
    ensures e.status == 500 && e.message.None? && e.headers.None?
  {
    ErrorResponse(INTERNAL_SERVER_ERROR, None, None)
  }

  /** A JSON error response always says it is JSON, whatever headers were set. */
  lemma JsonErrorIsJson(e: ErrorResponse)
    ensures e.ToJsonResponse().IsJson()
    ensures e.ToJsonResponse().HeaderIs("Content-Type", "application/json")
  {
    HeaderIsImpliesContains(e.ToJsonResponse().headers, "Content-Type", "application/json");
  }

  /** The default error reads "Internal Server Error" in both renderings. */
  lemma DefaultErrorRendering()
    ensures NewErrorResponse().ToResponse().status == 500
    ensures NewErrorResponse().ToResponse().body == "Internal Server Error"
    ensures JsonText.ParseMessageBody(NewErrorResponse().ToJsonResponse().body) == Some("Internal Server Error")
  {
  }

  /** What a handler, an extractor or a middleware can fail with. */
  datatype AppError =
    | Structured(response: ErrorResponse)
    | Other(description: string)
}
