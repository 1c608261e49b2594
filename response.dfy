/**
 * Responses and their builder (valar/src/http/response.rs). The builder is
 * consumed and returned by every setter, so each setter is a function from
 * the old builder to the new one.
 */
module HttpResponse {
  import opened Wrappers
  import opened Strings
  import opened HttpTypes

  datatype Response = Response(
    status: StatusCode,
    version: Version,
    headers: map<string, string>,
    body: string)
  {
    /** `has_header`: exact (case-sensitive) key lookup. */
    predicate HasHeader(key: string) {
      key in headers
    }

    /** `header_is`: the header is present and equal to `value`. */
    predicate HeaderIs(key: string, value: string) {
      HttpTypes.HeaderIs(headers, key, value)
    }

    /** `header_contains`: the header is present and contains `value`. */
    predicate HeaderContains(key: string, value: string) {
      HttpTypes.HeaderContains(headers, key, value)
    }

    /**
     * `is_json`: Content-Type contains `application/json`; a response
     * without one is never JSON, one with exactly that value always is.
     */
    predicate IsJson()
      ensures "Content-Type" !in headers ==> !IsJson()
      ensures HeaderIs("Content-Type", "application/json") ==> IsJson()
    {
      ContainsSelf("application/json");
      HeaderContains("Content-Type", "application/json")
    }
  }

  lemma AbsentHeaderPredicates(r: Response, key: string, value: string)
    requires !r.HasHeader(key)
    ensures !r.HeaderIs(key, value) && !r.HeaderContains(key, value)
    ensures key == "Content-Type" ==> !r.IsJson()
  {
  }

  datatype ResponseBuilder = ResponseBuilder(
    status: StatusCode,
    version: Version,
    headers: map<string, string>,
    body: string)
  {
    /** `status`: replaces the status and nothing else. */
    function Status(s: StatusCode): (r: ResponseBuilder)
      ensures r.status == s && r.version == version && r.headers == headers && r.body == body
    {
      this.(status := s)
    }

    /** `header`: inserts (or replaces) one key. */
    function Header(key: string, value: string): (r: ResponseBuilder)
      ensures r.headers == headers[key := value]
      ensures r.status == status && r.version == version && r.body == body
    {
      this.(headers := headers[key := value])
    }

    /** `headers`: replaces the whole header map. */
    function Headers(m: map<string, string>): (r: ResponseBuilder)
      ensures r.headers == m && r.status == status && r.version == version && r.body == body
    {
      this.(headers := m)
    }

    function Body(b: string): (r: ResponseBuilder)
      ensures r.body == b && r.status == status && r.version == version && r.headers == headers
    {
      this.(body := b)
    }

    function Ok(): (r: ResponseBuilder)
      ensures r == Status(OK) && r.status == 200
    {
      Status(OK)
    }

    function Created(): (r: ResponseBuilder)
      ensures r == Status(CREATED) && r.status == 201
    {
      Status(CREATED)
    }

    function NoContent(): (r: ResponseBuilder)
      ensures r == Status(NO_CONTENT) && r.status == 204
    {
      Status(NO_CONTENT)
    }

    /** `unauthorized`: status 401 and the challenges in `WWW-Authenticate`. */
    function Unauthorized(challenges: string): (r: ResponseBuilder)
      ensures r.status == 401 && r.headers == headers["WWW-Authenticate" := challenges]
      ensures r.version == version && r.body == body
    {
      this.(headers := headers["WWW-Authenticate" := challenges], status := UNAUTHORIZED)
    }

    function NotFound(): (r: ResponseBuilder)
      ensures r == Status(NOT_FOUND) && r.status == 404
    {
      this.(status := NOT_FOUND)
    }

    function MethodNotAllowed(): (r: ResponseBuilder)
      ensures r == Status(METHOD_NOT_ALLOWED) && r.status == 405
    {
      this.(status := METHOD_NOT_ALLOWED)
    }

    function InternalServerError(): (r: ResponseBuilder)
      ensures r == Status(INTERNAL_SERVER_ERROR) && r.status == 500
    {
      this.(status := INTERNAL_SERVER_ERROR)
    }

    /** `html`: Content-Type `text/html` and the given body. */
    function Html(html: string): (r: ResponseBuilder)
      ensures r.headers == headers["Content-Type" := "text/html"] && r.body == html
      ensures r.status == status && r.version == version
    {
      this.(headers := headers["Content-Type" := "text/html"], body := html)
    }

    /** `text`: Content-Type `text/plain` and the given body. */
    function Text(text: string): (r: ResponseBuilder)
      ensures r.headers == headers["Content-Type" := "text/plain"] && r.body == text
      ensures r.status == status && r.version == version
    {
      this.(headers := headers["Content-Type" := "text/plain"], body := text)
    }

    /**
     * `json_or`: Content-Type `application/json`; the body is the serialised
     * value, or `default` when serialisation failed. The serialiser itself is
     * not modelled: `serialized` is its outcome.
     */
    function JsonOr(serialized: Result<string, string>, default: string): (r: ResponseBuilder)
      ensures r.headers == headers["Content-Type" := "application/json"]
      ensures r.body == (if serialized.Ok? then serialized.value else default)
      ensures r.status == status && r.version == version
    {
      this.(headers := headers["Content-Type" := "application/json"],
            body := if serialized.Ok? then serialized.value else default)
    }

    /** `json_or_else`: like `json_or`, the fallback body computed from the error. */
    function JsonOrElse(serialized: Result<string, string>, default: string -> string): (r: ResponseBuilder)
      ensures r.headers == headers["Content-Type" := "application/json"]
      ensures serialized.Ok? ==> r.body == serialized.value
      ensures serialized.Err? ==> r.body == default(serialized.error)
      ensures r.status == status && r.version == version
    {
      this.(headers := headers["Content-Type" := "application/json"],
            body := if serialized.Ok? then serialized.value else default(serialized.error))
    }

    /** `json`: like `json_or`, but a serialisation failure is returned. */
    function Json(serialized: Result<string, string>): (r: Result<ResponseBuilder, string>)
      ensures serialized.Err? <==> r.Err?
      ensures r.Ok? ==>
        && r.value.headers == headers["Content-Type" := "application/json"]
        && r.value.body == serialized.value
        && r.value.status == status && r.value.version == version
    {
      if serialized.Err? then Err(serialized.error)
      else Result.Ok(this.(headers := headers["Content-Type" := "application/json"], body := serialized.value))
    }

    /** `build`: every field carried over unchanged. */
    function Build(): (r: Response)
      ensures r.status == status && r.version == version && r.headers == headers && r.body == body
    {
      Response(status, version, headers, body)
    }

    /** `produce`: always succeeds with the built response. */
    function Produce(): (r: Result<Response, string>)
      ensures r.Ok? && r.value == Build()
    {
      Result.Ok(Build())
    }
  }

  /** `ResponseBuilder::default()`: 200, HTTP/1.1, no headers, empty body. */
  function NewBuilder(): (b: ResponseBuilder)
    ensures b.status == 200 && b.version == HTTP_11 && b.headers == map[] && b.body == ""
  {
    ResponseBuilder(OK, HTTP_11, map[], "")
  }

  /** `Response::ok()`, `created()`, `no_content()`, `not_found()`. */
  function OkBuilder(): (b: ResponseBuilder)
    ensures b == NewBuilder().(status := 200)
  {
    NewBuilder().Ok()
  }

  function CreatedBuilder(): (b: ResponseBuilder)
    ensures b == NewBuilder().(status := 201)
  {
    NewBuilder().Created()
  }

  function NoContentBuilder(): (b: ResponseBuilder)
    ensures b == NewBuilder().(status := 204)
  {
    NewBuilder().NoContent()
  }

  function NotFoundBuilder(): (b: ResponseBuilder)
    ensures b == NewBuilder().(status := 404)
  {
    NewBuilder().NotFound()
  }

  /** The status helpers touch only the status, so the last one applied wins. */
  lemma LastStatusWins(b: ResponseBuilder, s: StatusCode, t: StatusCode)
    ensures b.Status(s).Status(t) == b.Status(t)
    ensures b.Status(s).NotFound() == b.NotFound()
    ensures b.NotFound().Ok() == b.Ok()
  {
  }

  /** A response built by `html` or `text` reports its own Content-Type. */
  lemma HtmlTextContentType(b: ResponseBuilder, s: string)
    ensures b.Html(s).Build().HeaderIs("Content-Type", "text/html")
    ensures b.Text(s).Build().HeaderIs("Content-Type", "text/plain")
    ensures !b.Text(s).Build().IsJson()
    ensures b.JsonOr(Err("e"), s).Build().IsJson()
  {
    var h := b.Html(s).Build();
    assert h.headers == b.headers["Content-Type" := "text/html"];
    var t := b.Text(s).Build();
    assert t.headers == b.headers["Content-Type" := "text/plain"];
    ContainsShorter("text/plain", "application/json");
    assert !HttpTypes.HeaderContains(t.headers, "Content-Type", "application/json");
    JsonOrIsJson(b, s);
  }

  /** A response built by `json_or` is JSON, whatever became of the serialisation. */
  lemma JsonOrIsJson(b: ResponseBuilder, s: string)
    ensures b.JsonOr(Err("e"), s).Build().IsJson()
  {
    var r := b.JsonOr(Err("e"), s).Build();
    ContainsSelf("application/json");
    assert r.headers["Content-Type"] == "application/json";
  }
}
