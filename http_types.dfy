/**
 * The value types the framework takes from the `http` crate: methods,
 * versions, status codes and URIs. Only what the modelled code observes of
 * them is kept.
 */
module HttpTypes {
  import opened Wrappers
  import opened Strings

  /** An HTTP method; `Extension` stands for any non-standard token. */
  datatype Method =
    | OPTIONS | GET | POST | PUT | DELETE | HEAD | TRACE | CONNECT | PATCH
    | Extension(token: string)

  /** `Method::default()` is GET. */
  const DefaultMethod: Method := GET

  function MethodName(m: Method): string {
    match m
    case OPTIONS => "OPTIONS"
    case GET => "GET"
    case POST => "POST"
    case PUT => "PUT"
    case DELETE => "DELETE"
    case HEAD => "HEAD"
    case TRACE => "TRACE"
    case CONNECT => "CONNECT"
    case PATCH => "PATCH"
    case Extension(t) => t
  }

  datatype Version = HTTP_09 | HTTP_10 | HTTP_11 | HTTP_2 | HTTP_3

  /** `Version::default()` is HTTP/1.1. */
  const DefaultVersion: Version := HTTP_11

  /** Status codes are plain numbers here; the ones the framework names. */
  type StatusCode = nat
  const OK: StatusCode := 200
  const CREATED: StatusCode := 201
  const NO_CONTENT: StatusCode := 204
  const UNAUTHORIZED: StatusCode := 401
  const NOT_FOUND: StatusCode := 404
  const METHOD_NOT_ALLOWED: StatusCode := 405
  const INTERNAL_SERVER_ERROR: StatusCode := 500

  /**
   * A request target: its path and an optional query. `path_and_query()`
   * is absent only for a URI with neither; `Uri::default()` is `/`.
   */
  datatype Uri = Uri(path: string, query: Option<string>) {
    function PathAndQuery(): Option<string> {
      if path == "" && query.None? then None
      else Some(path + (if query.Some? then "?" + query.value else ""))
    }

    function ToString(): string {
      PathAndQuery().UnwrapOr("")
    }
  }

  const DefaultUri: Uri := Uri("/", None)

  /** A single-valued header map (`HashMap<String, String>`): exact key lookup. */
  predicate HeaderIs(headers: map<string, string>, key: string, value: string) {
    key in headers && headers[key] == value
  }

  predicate HeaderContains(headers: map<string, string>, key: string, value: string) {
    key in headers && Contains(headers[key], value)
  }

  lemma HeaderIsImpliesContains(headers: map<string, string>, key: string, value: string)
    requires HeaderIs(headers, key, value)
    ensures key in headers && HeaderContains(headers, key, value)
  {
    ContainsSelf(value);
  }

  /**
   * A request as the server receives it (`http::Request<Body>`), before
   * routing. Header names are kept lower-cased, as the `http` crate stores
   * them, and each name has one value.
   */
  datatype BaseRequest = BaseRequest(
    httpMethod: Method,
    uri: Uri,
    version: Version,
    headers: map<string, string>,
    body: string)

  /** `HeaderValue::to_str` succeeds only on visible ASCII and tab. */
  predicate VisibleAscii(s: string) {
    forall i :: 0 <= i < |s| ==> s[i] == '\t' || (' ' <= s[i] <= '~')
  }
}
