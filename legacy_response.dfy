/**
 * The response builder of the first generation of the framework
 * (src/http/response.rs). Every builder method takes the builder by value
 * and returns it changed, so each is a function from the old builder to the
 * new one. The body is kept as text.
 */
module LegacyResponse {
  import opened Wrappers
  import opened HttpTypes

  datatype Response = Response(
    status: StatusCode,
    version: Version,
    headers: map<string, string>,
    body: string)

  datatype ResponseBuilder = ResponseBuilder(
    status: StatusCode,
    version: Version,
    headers: map<string, string>,
    body: string)
  {
    /** `status`: the status is replaced and nothing else changes. */
    function Status(s: StatusCode): (r: ResponseBuilder)
      ensures r.status == s && r.version == version && r.headers == headers && r.body == body
    {
      this.(status := s)
    }

    /** `header`: one key is inserted or replaced; every other key keeps its value. */
    function Header(key: string, value: string): (r: ResponseBuilder)
      ensures key in r.headers && r.headers[key] == value
      ensures forall k :: k != key ==> (k in r.headers <==> k in headers)
      ensures forall k :: k != key && k in headers ==> r.headers[k] == headers[k]
      ensures r.status == status && r.version == version && r.body == body
    {
      this.(headers := headers[key := value])
    }

    /** `headers`: the whole map is replaced, earlier headers are gone. */
    function Headers(m: map<string, string>): (r: ResponseBuilder)
      ensures r.headers == m && r.status == status && r.version == version && r.body == body
    {
      this.(headers := m)
    }

    /** `body`: the body is replaced. */
    function Body(b: string): (r: ResponseBuilder)
      ensures r.body == b && r.status == status && r.version == version && r.headers == headers
    {
      this.(body := b)
    }

    /** `ok`, `created`, `no_content`: through `status`. */
    function Ok(): (r: ResponseBuilder)
      ensures r.status == 200 && r == this.(status := 200)
    {
      Status(OK)
    }

    function Created(): (r: ResponseBuilder)
      ensures r.status == 201 && r == this.(status := 201)
    {
      Status(CREATED)
    }

    function NoContent(): (r: ResponseBuilder)
      ensures r.status == 204 && r == this.(status := 204)
    {
      Status(NO_CONTENT)
    }

    /** `unauthorized`: status 401 and the challenges in `WWW-Authenticate`. */
    function Unauthorized(challenges: string): (r: ResponseBuilder)
      ensures r.status == 401 && r.headers == headers["WWW-Authenticate" := challenges]
      ensures r.version == version && r.body == body
    {
      this.(headers := headers["WWW-Authenticate" := challenges], status := UNAUTHORIZED)
    }

    /** `not_found`, `method_not_allowed`, `internal_server_error`: the field is set directly. */
    function NotFound(): (r: ResponseBuilder)
      ensures r.status == 404 && r == this.(status := 404)
    {
      this.(status := NOT_FOUND)
    }

    function MethodNotAllowed(): (r: ResponseBuilder)
      ensures r.status == 405 && r == this.(status := 405)
    {
      this.(status := METHOD_NOT_ALLOWED)
    }

    function InternalServerError(): (r: ResponseBuilder)
      ensures r.status == 500 && r == this.(status := 500)
    {
      this.(status := INTERNAL_SERVER_ERROR)
    }

    /** `html`: Content-Type `text/html` and the given body. */
    function Html(html: string): (r: ResponseBuilder)
      ensures r.headers == headers["Content-Type" := "text/html"] && r.body == html
      ensures r.status == status && r.version == version
    {
      this.(headers := headers["Content-Type" := "text/html"], body := html)
    }

    /** `text`: Content-Type `text/plain` and the given body. */
    function Text(text: string): (r: ResponseBuilder)
      ensures r.headers == headers["Content-Type" := "text/plain"] && r.body == text
      ensures r.status == status && r.version == version
    {
      this.(headers := headers["Content-Type" := "text/plain"], body := text)
    }

    /**
     * `json`: Content-Type `application/json` and the serialised value as
     * the body, or the serialiser's error. The serialiser is not modelled:
     * `serialized` is its outcome.
     */
    function Json(serialized: Result<string, string>): (r: Result<ResponseBuilder, string>)
      ensures serialized.Err? <==> r.Err?
      ensures r.Err? ==> r.error == serialized.error
      ensures r.Ok? ==>
        && r.value.headers == headers["Content-Type" := "application/json"]
        && r.value.body == serialized.value
        && r.value.status == status && r.value.version == version
    {
      match serialized
      case Err(x) => Err(x)
      case Ok(text) => Result.Ok(this.(headers := headers["Content-Type" := "application/json"], body := text))
    }

    /** `json_or`: as `json`, with `default` as the body when serialisation fails. */
    function JsonOr(serialized: Result<string, string>, default: string): (r: ResponseBuilder)
      ensures r.headers == headers["Content-Type" := "application/json"]
      ensures r.body == (if serialized.Ok? then serialized.value else default)
      ensures r.status == status && r.version == version
    {
      this.(headers := headers["Content-Type" := "application/json"], body := if serialized.Ok? then serialized.value else default)
    }

    /** `json_or_else`: as `json`, with the fallback body computed from the error. */
    function JsonOrElse(serialized: Result<string, string>, default: string -> string): (r: ResponseBuilder)
      ensures r.headers == headers["Content-Type" := "application/json"]
      ensures serialized.Ok? ==> r.body == serialized.value
      ensures serialized.Err? ==> r.body == default(serialized.error)
      ensures r.status == status && r.version == version
    {
      var text := match serialized case Ok(v) => v case Err(x) => default(x);
      this.(headers := headers["Content-Type" := "application/json"], body := text)
    }

    /** `build`: every field carried over unchanged. */
    function Build(): (r: Response)
      ensures r.status == status && r.version == version && r.headers == headers && r.body == body
    {
      Response(status, version, headers, body)
    }

    /** `produce`: never fails. */
    function Produce(): (r: Result<Response, string>)
      ensures r.Ok? && r.value == Build()
    {
      Result.Ok(Build())
    }
  }

  /** `ResponseBuilder::default()` (and `new`): 200, HTTP/1.1, no headers, an empty body. */
  function NewBuilder(): (b: ResponseBuilder)
    ensures b.status == 200 && b.version == HTTP_11 && b.headers == map[] && b.body == ""
  {
    ResponseBuilder(OK, HTTP_11, map[], "")
  }

  /** `Response::ok()`, `created()`, `no_content()`, `not_found()`: a fresh builder with that status. */
  function ShortcutBuilder(s: StatusCode): (b: ResponseBuilder)
    ensures b.status == s && b.version == HTTP_11 && b.headers == map[] && b.body == ""
  {
    NewBuilder().Status(s)
  }

  /** The shortcuts are the builder's own helpers applied to a fresh builder. */
  lemma Shortcuts()
    ensures ShortcutBuilder(OK) == NewBuilder().Ok()
    ensures ShortcutBuilder(CREATED) == NewBuilder().Created()
    ensures ShortcutBuilder(NO_CONTENT) == NewBuilder().NoContent()
    ensures ShortcutBuilder(NOT_FOUND) == NewBuilder().NotFound()
  {
  }

  /**
   * The status helpers touch only the status, so of several the last one
   * wins; `html` and `text` replace each other's Content-Type and body.
   */
  lemma LastSettingWins(b: ResponseBuilder, s: StatusCode, x: string, y: string)
    ensures b.Status(s).NotFound() == b.NotFound()
    ensures b.InternalServerError().Ok() == b.Ok()
    ensures b.Html(x).Text(y) == b.Text(y)
    ensures b.Text(x).Html(y) == b.Html(y)
  {
  }

  /** `unauthorized` is `header("WWW-Authenticate", challenges)` then status 401, in either order. */
  lemma UnauthorizedSplits(b: ResponseBuilder, challenges: string)
    ensures b.Unauthorized(challenges) == b.Header("WWW-Authenticate", challenges).Status(UNAUTHORIZED)
    ensures b.Unauthorized(challenges) == b.Status(UNAUTHORIZED).Header("WWW-Authenticate", challenges)
  {
  }
}
