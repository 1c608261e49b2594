/**
 * Requests as handlers see them (valar/src/http/request.rs): method, URI,
 * version, a single-valued header map, a text body, the route parameters
 * extracted by the router and the query parameters derived from the URI.
 */
module HttpRequest {
  import opened Wrappers
  import opened Strings
  import opened HttpTypes
  import opened HttpError

  /**
   * One `key=value` piece of a query string: the key is the text before the
   * first `=`, the value the text between the first and a second `=`, or
   * empty when there is no `=`.
   */
  function QueryPair(piece: string): (kv: (string, string))
    ensures '=' !in kv.0 && '=' !in kv.1
    ensures '=' !in piece ==> kv == (piece, "")
  {
    var parts := Split(piece, '=');
    SplitPiecesFree(piece, '=');
    QueryPairFree(piece);
    (parts[0], if |parts| >= 2 then parts[1] else "")
  }

  lemma QueryPairFree(piece: string)
    ensures '=' !in piece ==> Split(piece, '=') == [piece]
  {
    if '=' !in piece {
      SplitFree(piece, '=');
    }
  }

  lemma QueryPairOfPair(key: string, value: string)
    requires '=' !in key && '=' !in value
    ensures QueryPair(key + "=" + value) == (key, value)
  {
    SplitAround(key, '=', value);
    SplitFree(value, '=');
  }

  /** The pairs of a query string, in order. */
  function QueryPairs(query: string): (pairs: seq<(string, string)>)
    ensures |pairs| == |Split(query, '&')| >= 1
  {
    var pieces := Split(query, '&');
    seq(|pieces|, i requires 0 <= i < |pieces| => QueryPair(pieces[i]))
  }

  /** `collect()` into a `HashMap`: a later pair overwrites an earlier one. */
  function PairsToMap(pairs: seq<(string, string)>): (m: map<string, string>)
    ensures forall k :: k in m <==> exists i :: 0 <= i < |pairs| && pairs[i].0 == k
    decreases |pairs|
  {
    if |pairs| == 0 then map[]
    else
      var init := PairsToMap(pairs[..|pairs| - 1]);
      assert forall i :: 0 <= i < |pairs| - 1 ==> pairs[..|pairs| - 1][i] == pairs[i];
      init[pairs[|pairs| - 1].0 := pairs[|pairs| - 1].1]
  }

  /** The value kept for a key is the one of its last occurrence. */
  lemma {:induction false} PairsToMapLastWins(pairs: seq<(string, string)>, i: nat)
    requires i < |pairs|
    requires forall j :: i < j < |pairs| ==> pairs[j].0 != pairs[i].0
    ensures pairs[i].0 in PairsToMap(pairs) && PairsToMap(pairs)[pairs[i].0] == pairs[i].1
    decreases |pairs|
  {
    if i < |pairs| - 1 {
      var init := pairs[..|pairs| - 1];
      assert init[i] == pairs[i];
      PairsToMapLastWins(init, i);
    }
  }

  /** The query string the map is built from, as the code computes it. */
  function QuerySourceAsWritten(uri: Uri): Option<string> {
    var pq := uri.PathAndQuery();
    if pq.None? then None
    else Some(TrimStartMatches(TrimStartMatches(pq.value, '/'), '?'))
  }

  /**
   * `query_parameters_from` as written: it reads `path_and_query()`, so the
   * path (less its leading slashes) stays glued to the first key.
   */
  function QueryParametersFromAsWritten(uri: Uri): (m: map<string, string>)
    ensures uri.PathAndQuery().None? ==> m == map[]
  {
    var src := QuerySourceAsWritten(uri);
    if src.None? then map[] else PairsToMap(QueryPairs(src.value))
  }

  /**
   * `query_parameters_from` as intended: the pairs of the URI's query
   * string; a URI without a query has no query parameters.
   */
  function QueryParametersFrom(uri: Uri): (m: map<string, string>)
    ensures uri.query.None? ==> m == map[]
  {
    if uri.query.None? then map[]
    else PairsToMap(QueryPairs(TrimStartMatches(uri.query.value, '?')))
  }

  /** The intended query map does not depend on the path. */
  lemma QueryParametersIgnorePath(p1: string, p2: string, q: Option<string>)
    ensures QueryParametersFrom(Uri(p1, q)) == QueryParametersFrom(Uri(p2, q))
  {
  }

  /** A query written as `k1=v1&k2=v2&...` is read back pair by pair. */
  lemma {:induction false} QueryPairsOfJoin(pairs: seq<(string, string)>)
    requires |pairs| >= 1
    requires forall i :: 0 <= i < |pairs| ==>
      '=' !in pairs[i].0 && '&' !in pairs[i].0 && '=' !in pairs[i].1 && '&' !in pairs[i].1
    ensures QueryPairs(Join(seq(|pairs|, i requires 0 <= i < |pairs| => pairs[i].0 + "=" + pairs[i].1), "&")) == pairs
  {
    var pieces := seq(|pairs|, i requires 0 <= i < |pairs| => pairs[i].0 + "=" + pairs[i].1);
    forall i | 0 <= i < |pieces|
      ensures '&' !in pieces[i] && QueryPair(pieces[i]) == pairs[i]
    {
      QueryPairOfPair(pairs[i].0, pairs[i].1);
    }
    JoinSplit(pieces, '&');
  }

  /**
   * Where the two readings agree: a URI whose path is `/` and whose query
   * does not start with `?` or `/` gives the same map either way.
   */
  lemma QueryAsWrittenAgreesAtRoot(q: string)
    requires !StartsWith(q, '?') && !StartsWith(q, '/')
    ensures QueryParametersFromAsWritten(Uri("/", Some(q))) == QueryParametersFrom(Uri("/", Some(q)))
  {
    var pq := "/" + ("?" + q);
    assert Uri("/", Some(q)).PathAndQuery() == Some(pq);
    assert pq[1..] == "?" + q;
    TrimStartNoop("?" + q, '/');
    assert TrimStartMatches(pq, '/') == "?" + q;
    assert ("?" + q)[1..] == q;
    TrimStartNoop(q, '?');
    assert TrimStartMatches("?" + q, '?') == q;
    assert QuerySourceAsWritten(Uri("/", Some(q))) == Some(q);
  }

  /** The map of a query made of one `key=value` piece. */
  lemma SinglePairQuery(key: string, value: string)
    requires Plain(key) && Plain(value)
    ensures PairsToMap(QueryPairs(key + "=" + value)) == map[key := value]
  {
    var pairs := [(key, value)];
    QueryPairsOfJoin(pairs);
    var pieces := seq(|pairs|, i requires 0 <= i < |pairs| => pairs[i].0 + "=" + pairs[i].1);
    assert pieces == [key + "=" + value];
  }

  lemma TrimStartNoop(s: string, c: char)
    requires !StartsWith(s, c)
    ensures TrimStartMatches(s, c) == s
  {
  }

  /** Free of the two query delimiters. */
  predicate Plain(s: string) {
    '=' !in s && '&' !in s
  }

  /**
   * A path `/p` followed by the query `k=v`: the code reads the key as
   * `p?k`; the intended reading gives `k`.
   */
  lemma QueryPathLeakGeneral(p: string, k: string, v: string)
    requires Plain(p) && Plain(k) && Plain(v)
    requires |p| > 0 && p[0] != '/' && p[0] != '?' && !StartsWith(k, '?')
    ensures QueryParametersFromAsWritten(Uri("/" + p, Some(k + "=" + v))) == map[p + "?" + k := v]
    ensures QueryParametersFrom(Uri("/" + p, Some(k + "=" + v))) == map[k := v]
  {
    var uri := Uri("/" + p, Some(k + "=" + v));
    var pq := ("/" + p) + ("?" + (k + "=" + v));
    assert uri.PathAndQuery() == Some(pq);
    var src := (p + "?" + k) + "=" + v;
    assert pq[1..] == src;
    TrimStartNoop(src, '/');
    TrimStartNoop(src, '?');
    assert QuerySourceAsWritten(uri) == Some(src);
    SinglePairQuery(p + "?" + k, v);
    TrimStartNoop(k + "=" + v, '?');
    SinglePairQuery(k, v);
  }

  /** `/users?id=1`: the code files the pair under `users?id`, not `id`. */
  lemma QueryPathLeak()
    ensures "users?id" in QueryParametersFromAsWritten(Uri("/users", Some("id=1")))
    ensures "id" !in QueryParametersFromAsWritten(Uri("/users", Some("id=1")))
    ensures QueryParametersFrom(Uri("/users", Some("id=1"))) == map["id" := "1"]
  {
    var p, k, v := "users", "id", "1";
    assert "/" + p == "/users";
    assert k + "=" + v == "id=1";
    assert p + "?" + k == "users?id";
    assert Plain(p) && Plain(k) && Plain(v);
    QueryPathLeakGeneral(p, k, v);
  }

  /** Two pairs with different keys. */
  lemma TwoPairQuery(k1: string, v1: string, k2: string, v2: string)
    requires Plain(k1) && Plain(v1) && Plain(k2) && Plain(v2) && !StartsWith(k1, '?')
    ensures QueryParametersFrom(Uri("/", Some(k1 + "=" + v1 + "&" + k2 + "=" + v2))) == map[k1 := v1, k2 := v2]
  {
    var q := k1 + "=" + v1 + "&" + k2 + "=" + v2;
    TwoPairsRead(k1, v1, k2, v2);
    TrimStartNoop(q, '?');
    TwoPairsMap(k1, v1, k2, v2);
  }

  /** The two pieces of `k1=v1&k2=v2`, read back as pairs. */
  lemma TwoPairsRead(k1: string, v1: string, k2: string, v2: string)
    requires Plain(k1) && Plain(v1) && Plain(k2) && Plain(v2)
    ensures QueryPairs(k1 + "=" + v1 + "&" + k2 + "=" + v2) == [(k1, v1), (k2, v2)]
  {
    var pairs := [(k1, v1), (k2, v2)];
    QueryPairsOfJoin(pairs);
    var pieces := seq(|pairs|, i requires 0 <= i < |pairs| => pairs[i].0 + "=" + pairs[i].1);
    var a, b := k1 + "=" + v1, k2 + "=" + v2;
    assert pieces == [a, b];
    assert Join([a, b], "&") == a + "&" + b by {
      assert [a, b][1..] == [b];
    }
    Regrouped3(a + "&", k2, "=", v2);
  }

  /** A two-pair sequence collected into a map. */
  lemma TwoPairsMap(k1: string, v1: string, k2: string, v2: string)
    ensures PairsToMap([(k1, v1), (k2, v2)]) == map[k1 := v1, k2 := v2]
  {
    var pairs := [(k1, v1), (k2, v2)];
    assert pairs[..1] == [(k1, v1)];
    assert pairs[..1][..0] == [];
    assert PairsToMap(pairs[..1]) == map[k1 := v1];
  }

  /** `http://localhost:3000/?id=1&name=John`: id is 1, name is John, no age. */
  lemma QueryDocExample()
    ensures QueryParametersFrom(Uri("/", Some("id=1&name=John"))) == map["id" := "1", "name" := "John"]
    ensures "age" !in QueryParametersFrom(Uri("/", Some("id=1&name=John")))
  {
    DocQuerySpelled();
    TwoPairQuery("id", "1", "name", "John");
  }

  /** The example's query string, piece by piece. */
  lemma DocQuerySpelled()
    ensures "id" + "=" + "1" + "&" + "name" + "=" + "John" == "id=1&name=John"
  {
    assert "id" + "=" == "id=";
    assert "id=" + "1" == "id=1";
    assert "id=1" + "&" == "id=1&";
    assert "id=1&" + "name" == "id=1&name";
    assert "id=1&name" + "=" == "id=1&name=";
  }

  datatype Request = Request(
    httpMethod: Method,
    uri: Uri,
    version: Version,
    headers: map<string, string>,
    body: string,
    routeParameters: map<string, string>,
    queryParameters: map<string, string>)
  {
    predicate HasHeader(key: string) {
      key in headers
    }

    predicate HeaderIs(key: string, value: string) {
      HttpTypes.HeaderIs(headers, key, value)
    }

    predicate HeaderContains(key: string, value: string) {
      HttpTypes.HeaderContains(headers, key, value)
    }

    /**
     * `is_json`: Content-Type contains `application/json`; a request
     * without one is never JSON, one with exactly that value always is.
     */
    predicate IsJson()
      ensures "Content-Type" !in headers ==> !IsJson()
      ensures HeaderIs("Content-Type", "application/json") ==> IsJson()
    {
      ContainsSelf("application/json");
      HeaderContains("Content-Type", "application/json")
    }

    /** `wants_json`: Accept contains `application/json`, the same way. */
    predicate WantsJson()
      ensures "Accept" !in headers ==> !WantsJson()
      ensures HeaderIs("Accept", "application/json") ==> WantsJson()
    {
      ContainsSelf("application/json");
      HeaderContains("Accept", "application/json")
    }

    predicate HasParameter(name: string) {
      name in routeParameters
    }

    function MaybeParameter(name: string): (r: Option<string>)
      ensures r.Some? <==> HasParameter(name)
      ensures r.Some? ==> r.value == routeParameters[name]
    {
      if name in routeParameters then Some(routeParameters[name]) else None
    }

    /** `route_parameter`: the value, or a 500 naming the missing parameter. */
    function RouteParameter(name: string): (r: Result<string, ErrorResponse>)
      ensures r.Ok? <==> HasParameter(name)
      ensures r.Ok? ==> r.value == routeParameters[name]
      ensures r.Err? ==>
        && r.error.status == 500 && r.error.headers.None?
        && r.error.message == Some("Unknown route parameter: `" + name + "`")
    {
      match MaybeParameter(name)
      case Some(v) => Result.Ok(v)
      case None =>
        Err(NewErrorResponse().WithMessage("Unknown route parameter: `" + name + "`").WithStatus(INTERNAL_SERVER_ERROR))
    }

    /**
     * `parameter::<T>`: a missing parameter fails with its structured error,
     * a value `parse` rejects fails with the parser's message.
     */
    function Parameter<T>(name: string, parse: string -> Result<T, string>): (r: Result<T, AppError>)
      ensures !HasParameter(name) ==> r == Err(Structured(RouteParameter(name).error))
      ensures HasParameter(name) ==>
        (parse(routeParameters[name]).Ok? <==> r.Ok?) &&
        (r.Ok? ==> r.value == parse(routeParameters[name]).value)
    {
      match RouteParameter(name)
      case Err(e) => Err(Structured(e))
      case Ok(v) =>
        match parse(v)
        case Ok(x) => Result.Ok(x)
        case Err(d) => Err(Other(d))
    }

    predicate HasQuery(name: string) {
      name in queryParameters
    }

    function MaybeQuery(name: string): (r: Option<string>)
      ensures r.Some? <==> HasQuery(name)
      ensures r.Some? ==> r.value == queryParameters[name]
    {
      if name in queryParameters then Some(queryParameters[name]) else None
    }

    /** `query_parameter`: the value, or a 500 naming the missing query key. */
    function QueryParameter(name: string): (r: Result<string, ErrorResponse>)
      ensures r.Ok? <==> HasQuery(name)
      ensures r.Ok? ==> r.value == queryParameters[name]
      ensures r.Err? ==>
        && r.error.status == 500 && r.error.headers.None?
        && r.error.message == Some("Unknown query parameter: `" + name + "`")
    {
      match MaybeQuery(name)
      case Some(v) => Result.Ok(v)
      case None =>
        Err(NewErrorResponse().WithMessage("Unknown query parameter: `" + name + "`").WithStatus(INTERNAL_SERVER_ERROR))
    }

    /** `query::<T>`: as `parameter::<T>`, over the query map. */
    function Query<T>(name: string, parse: string -> Result<T, string>): (r: Result<T, AppError>)
      ensures !HasQuery(name) ==> r == Err(Structured(QueryParameter(name).error))
      ensures HasQuery(name) ==>
        (parse(queryParameters[name]).Ok? <==> r.Ok?) &&
        (r.Ok? ==> r.value == parse(queryParameters[name]).value)
    {
      match QueryParameter(name)
      case Err(e) => Err(Structured(e))
      case Ok(v) =>
        match parse(v)
        case Ok(x) => Result.Ok(x)
        case Err(d) => Err(Other(d))
    }
  }

  /** Equality of a header implies containment; both are false when it is absent. */
  lemma HeaderPredicates(r: Request, key: string, value: string)
    ensures r.HeaderIs(key, value) ==> r.HeaderContains(key, value)
    ensures !r.HasHeader(key) ==> !r.HeaderIs(key, value) && !r.HeaderContains(key, value)
  {
    if r.HeaderIs(key, value) {
      HeaderIsImpliesContains(r.headers, key, value);
    }
  }

  datatype RequestBuilder = RequestBuilder(
    httpMethod: Method,
    uri: Uri,
    version: Version,
    headers: map<string, string>,
    body: string,
    routeParameters: map<string, string>)
  {
    function WithMethod(m: Method): (b: RequestBuilder)
      ensures b == this.(httpMethod := m) && b.uri == uri
    {
      this.(httpMethod := m)
    }

    function WithUri(u: Uri): (b: RequestBuilder)
      ensures b == this.(uri := u) && b.httpMethod == httpMethod
    {
      this.(uri := u)
    }

    /** `uri_str`: `parsed` is the outcome of parsing the text as a URI. */
    function WithUriStr(parsed: Result<Uri, string>): (r: Result<RequestBuilder, string>)
      ensures r.Ok? <==> parsed.Ok?
      ensures r.Ok? ==> r.value == this.(uri := parsed.value)
    {
      match parsed
      case Ok(u) => Result.Ok(this.(uri := u))
      case Err(e) => Err(e)
    }

    function WithVersion(v: Version): (b: RequestBuilder)
      ensures b == this.(version := v) && b.httpMethod == httpMethod
    {
      this.(version := v)
    }

    function WithHeader(key: string, value: string): (b: RequestBuilder)
      ensures b.headers == headers[key := value] && b == this.(headers := b.headers)
    {
      this.(headers := headers[key := value])
    }

    function WithHeaders(h: map<string, string>): (b: RequestBuilder)
      ensures b == this.(headers := h) && b.httpMethod == httpMethod
    {
      this.(headers := h)
    }

    function WithBody(s: string): (b: RequestBuilder)
      ensures b == this.(body := s) && b.httpMethod == httpMethod
    {
      this.(body := s)
    }

    function WithRouteParameters(p: map<string, string>): (b: RequestBuilder)
      ensures b == this.(routeParameters := p) && b.httpMethod == httpMethod
    {
      this.(routeParameters := p)
    }

    /**
     * `build`: every field copied; the query map derived from the URI by
     * `query_parameters_from` as written, path included.
     */
    function Build(): (r: Request)
      ensures r.httpMethod == httpMethod && r.uri == uri && r.version == version
      ensures r.headers == headers && r.body == body && r.routeParameters == routeParameters
      ensures r.queryParameters == QueryParametersFromAsWritten(uri)
      ensures uri.PathAndQuery().None? ==> r.queryParameters == map[]
    {
      Request(httpMethod, uri, version, headers, body, routeParameters, QueryParametersFromAsWritten(uri))
    }

    /** `build` as intended: the query map read from the query string alone. */
    function BuildAsIntended(): (r: Request)
      ensures r == Build().(queryParameters := r.queryParameters)
      ensures r.queryParameters == QueryParametersFrom(uri)
      ensures uri.query.None? ==> r.queryParameters == map[]
    {
      Request(httpMethod, uri, version, headers, body, routeParameters, QueryParametersFrom(uri))
    }
  }

  /**
   * The default builder's URI is `/`, whose path and query is `/`: as
   * written, stripping it leaves one empty piece, so the built request has
   * the single query parameter `""` with an empty value; as intended it has
   * none.
   */
  lemma DefaultBuildQuery()
    ensures NewRequestBuilder().Build().queryParameters == map["" := ""]
    ensures NewRequestBuilder().BuildAsIntended().queryParameters == map[]
  {
    DefaultQueryAsWritten();
  }

  lemma DefaultQueryAsWritten()
    ensures QueryParametersFromAsWritten(DefaultUri) == map["" := ""]
  {
    DefaultQuerySource();
    EmptyQueryPairs();
    SinglePairMap("", "");
  }

  lemma SinglePairMap(k: string, v: string)
    ensures PairsToMap([(k, v)]) == map[k := v]
  {
    var pairs: seq<(string, string)> := [(k, v)];
    assert pairs[..0] == [];
    assert PairsToMap(pairs[..0]) == map[];
  }

  lemma DefaultQuerySource()
    ensures QuerySourceAsWritten(DefaultUri) == Some("")
  {
    assert "/" + "" == "/";
    assert DefaultUri.PathAndQuery() == Some("/");
    assert TrimStartMatches("/", '/') == TrimStartMatches("", '/');
  }

  lemma EmptyQueryPairs()
    ensures QueryPairs("") == [("", "")]
  {
    assert Split("", '&') == [""];
    assert QueryPair("") == ("", "");
  }

  /** `RequestBuilder::default()`: GET `/` over HTTP/1.1, nothing else set. */
  function NewRequestBuilder(): (b: RequestBuilder)
    ensures b.httpMethod == GET && b.uri == Uri("/", None) && b.version == HTTP_11
    ensures b.headers == map[] && b.body == "" && b.routeParameters == map[]
  {
    RequestBuilder(DefaultMethod, DefaultUri, DefaultVersion, map[], "", map[])
  }
}
