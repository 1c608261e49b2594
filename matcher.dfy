/**
 * The route matcher (valar/src/routing/matcher.rs): an ordered list of
 * (regex, route) entries, searched front to back for the first route whose
 * pattern matches the request path and whose method is the request's.
 * `handle` answers an unmatched request with a 404 error response, turns a
 * failure to build the request into an error response without running the
 * route, and otherwise runs the route's handler and renders its error, if
 * any. Errors are rendered as JSON when the client asks for it.
 */
module RouteMatcher {
  import opened Wrappers
  import opened Strings
  import opened HttpTypes
  import opened HttpResponse
  import opened HttpError
  import opened HttpRequest
  import opened Middleware
  import opened RoutePattern
  import opened Routing
  import JsonText

  datatype Matcher = Matcher(entries: seq<(Regex, Route)>)

  /**
   * `route.to_regex()`. A compiled route does not define it; the model
   * compiles the route's own regex source again, which cannot fail for a
   * pattern of plain literals and default classes.
   */
  function RouteRegex(e: Engine, route: Route): (r: Result<Regex, RegexError>)
    ensures r.Ok? ==> r.value == route.regex
    ensures Deterministic(route.regex.pattern) ==> r.Ok?
  {
    if Deterministic(route.regex.pattern) || e.accepts(route.regex.source) then Ok(route.regex)
    else Err(RegexError(route.regex.source))
  }

  /** `Matcher::new`: collects `Ok((regex, route))` per route, stopping at the first error. */
  function NewMatcher(e: Engine, routes: seq<Route>): Result<Matcher, RegexError>
    decreases |routes|
  {
    if |routes| == 0 then Ok(Matcher([]))
    else
      match RouteRegex(e, routes[0])
      case Err(x) => Err(x)
      case Ok(regex) =>
        match NewMatcher(e, routes[1..])
        case Err(x) => Err(x)
        case Ok(m) => Ok(Matcher([(regex, routes[0])] + m.entries))
  }

  /** Route `i` is the first whose regex does not compile. */
  predicate FirstFailure(e: Engine, routes: seq<Route>, i: int) {
    0 <= i < |routes| && RouteRegex(e, routes[i]).Err?
    && forall j :: 0 <= j < i ==> RouteRegex(e, routes[j]).Ok?
  }

  /**
   * `new` is all or nothing: it succeeds iff every route's regex compiles,
   * then keeps one entry per route in route order; otherwise it returns the
   * error of the first route that fails.
   */
  lemma {:induction false} NewMatcherAllOrNothing(e: Engine, routes: seq<Route>)
    ensures NewMatcher(e, routes).Ok? <==> forall i :: 0 <= i < |routes| ==> RouteRegex(e, routes[i]).Ok?
    ensures NewMatcher(e, routes).Ok? ==>
      |NewMatcher(e, routes).value.entries| == |routes|
      && forall i :: 0 <= i < |routes| ==> NewMatcher(e, routes).value.entries[i] == (routes[i].regex, routes[i])
    ensures NewMatcher(e, routes).Err? ==>
      exists i :: FirstFailure(e, routes, i) && NewMatcher(e, routes).error == RouteRegex(e, routes[i]).error
    decreases |routes|
  {
    if |routes| > 0 {
      NewMatcherAllOrNothing(e, routes[1..]);
      var rest := NewMatcher(e, routes[1..]);
      if RouteRegex(e, routes[0]).Err? {
        assert FirstFailure(e, routes, 0);
      } else if rest.Err? {
        var i :| FirstFailure(e, routes[1..], i) && rest.error == RouteRegex(e, routes[1..][i]).error;
        assert FirstFailure(e, routes, i + 1);
        assert !RouteRegex(e, routes[1..][i]).Ok?;
      } else {
        forall i | 0 <= i < |routes|
          ensures RouteRegex(e, routes[i]).Ok?
        {
          if i > 0 {
            assert routes[1..][i - 1] == routes[i];
          }
        }
      }
      if NewMatcher(e, routes).Ok? {
        forall i | 0 <= i < |routes| - 1
          ensures RouteRegex(e, routes[1..][i]).Ok?
        {
          assert routes[1..][i] == routes[i + 1];
        }
      }
    }
  }

  /** Entry `entry` answers `httpMethod` on `path`. */
  predicate Hit(e: Engine, entry: (Regex, Route), httpMethod: Method, path: string) {
    IsMatch(e, entry.0, path) && entry.1.httpMethod == httpMethod
  }

  function FindIn(e: Engine, entries: seq<(Regex, Route)>, httpMethod: Method, path: string): Option<Route>
    decreases |entries|
  {
    if |entries| == 0 then None
    else if Hit(e, entries[0], httpMethod, path) then Some(entries[0].1)
    else FindIn(e, entries[1..], httpMethod, path)
  }

  /**
   * `Matcher::find`: the route of the first entry, in list order, whose
   * pattern matches the path and whose method is equal; None if none does.
   */
  function Find(e: Engine, m: Matcher, httpMethod: Method, uri: Uri): (r: Option<Route>)
    ensures r.None? <==> forall i :: 0 <= i < |m.entries| ==> !Hit(e, m.entries[i], httpMethod, uri.path)
    ensures r.Some? ==> exists i :: FirstHit(e, m.entries, httpMethod, uri.path, i) && r.value == m.entries[i].1
  {
    FindFirst(e, m.entries, httpMethod, uri.path);
    FindIn(e, m.entries, httpMethod, uri.path)
  }

  /** `Matcher::matches`. */
  predicate Matches(e: Engine, m: Matcher, httpMethod: Method, uri: Uri) {
    Find(e, m, httpMethod, uri).Some?
  }

  /** Entry `i` is the first to answer. */
  predicate FirstHit(e: Engine, entries: seq<(Regex, Route)>, httpMethod: Method, path: string, i: int) {
    0 <= i < |entries| && Hit(e, entries[i], httpMethod, path)
    && forall j :: 0 <= j < i ==> !Hit(e, entries[j], httpMethod, path)
  }

  /**
   * `find` returns the route of the first entry, in list order, whose
   * pattern matches the path and whose method is equal; None if none does.
   */
  lemma {:induction false} FindFirst(e: Engine, entries: seq<(Regex, Route)>, httpMethod: Method, path: string)
    ensures FindIn(e, entries, httpMethod, path).None? <==>
      forall i :: 0 <= i < |entries| ==> !Hit(e, entries[i], httpMethod, path)
    ensures FindIn(e, entries, httpMethod, path).Some? ==>
      exists i :: FirstHit(e, entries, httpMethod, path, i) && FindIn(e, entries, httpMethod, path).value == entries[i].1
    decreases |entries|
  {
    if |entries| > 0 {
      FindFirst(e, entries[1..], httpMethod, path);
      if Hit(e, entries[0], httpMethod, path) {
        assert FirstHit(e, entries, httpMethod, path, 0);
      } else {
        if FindIn(e, entries[1..], httpMethod, path).Some? {
          var i :| FirstHit(e, entries[1..], httpMethod, path, i)
            && FindIn(e, entries[1..], httpMethod, path).value == entries[1..][i].1;
          assert FirstHit(e, entries, httpMethod, path, i + 1);
        } else {
          forall i | 0 <= i < |entries|
            ensures !Hit(e, entries[i], httpMethod, path)
          {
            if i > 0 {
              assert entries[1..][i - 1] == entries[i];
            }
          }
        }
      }
    }
  }

  /** `matches` holds iff some entry answers the method on the path. */
  lemma MatchesIff(e: Engine, m: Matcher, httpMethod: Method, uri: Uri)
    ensures Matches(e, m, httpMethod, uri) <==> exists i :: 0 <= i < |m.entries| && Hit(e, m.entries[i], httpMethod, uri.path)
  {
    FindFirst(e, m.entries, httpMethod, uri.path);
  }

  /** `into_json_response` or `into_response`, as the client prefers. */
  function Render(wantsJson: bool, error: ErrorResponse): Response {
    if wantsJson then error.ToJsonResponse() else error.ToResponse()
  }

  /** The error response an error stands for: itself if structured, else a 500 carrying its text. */
  function AsErrorResponse(error: AppError): (r: ErrorResponse)
    ensures error.Structured? ==> r == error.response
    ensures error.Other? ==> r.status == INTERNAL_SERVER_ERROR && r.Message() == error.description && r.headers.None?
  {
    match error
    case Structured(response) => response
    case Other(description) => NewErrorResponse().WithStatus(INTERNAL_SERVER_ERROR).WithMessage(description)
  }

  /**
   * `Matcher::error_response`: a structured error keeps its status and
   * message; any other error becomes a 500 whose message is its text. JSON
   * carries the message as `{"message": ...}`, plain text as the body.
   */
  function ErrorResponseFor(wantsJson: bool, error: AppError): (r: Response)
    ensures r.status == (if error.Structured? then error.response.status else INTERNAL_SERVER_ERROR)
    ensures wantsJson ==>
      && "Content-Type" in r.headers && r.headers["Content-Type"] == "application/json"
      && JsonText.ParseMessageBody(r.body) == Some(AsErrorResponse(error).Message())
    ensures !wantsJson ==> r.body == AsErrorResponse(error).Message()
    ensures error.Other? ==> AsErrorResponse(error).Message() == error.description
  {
    Render(wantsJson, AsErrorResponse(error))
  }

  /**
   * `Matcher::not_found`: the default error response with status 404. Its
   * message is the default one, `Internal Server Error`.
   */
  function NotFound(wantsJson: bool): (r: Response)
    ensures r.status == NOT_FOUND
    ensures wantsJson ==>
      && r.headers.Keys == {"Content-Type"} && r.headers["Content-Type"] == "application/json"
      && JsonText.ParseMessageBody(r.body) == Some(DefaultErrorMessage)
    ensures !wantsJson ==> r.headers == map[] && r.body == DefaultErrorMessage
  {
    var error := NewErrorResponse().WithStatus(NOT_FOUND);
    BareRendering(wantsJson, error);
    Render(wantsJson, error)
  }

  /** An error with no message and no headers renders with the default message and only the headers the form needs. */
  lemma BareRendering(wantsJson: bool, error: ErrorResponse)
    requires error.message.None? && error.headers.None?
    ensures Render(wantsJson, error).status == error.status
    ensures wantsJson ==>
      && Render(wantsJson, error).headers.Keys == {"Content-Type"}
      && Render(wantsJson, error).headers["Content-Type"] == "application/json"
      && JsonText.ParseMessageBody(Render(wantsJson, error).body) == Some(DefaultErrorMessage)
    ensures !wantsJson ==> Render(wantsJson, error).headers == map[] && Render(wantsJson, error).body == DefaultErrorMessage
  {
    assert error.CustomHeaders() == map[];
  }

  const AcceptName: string := "accept"

  /**
   * `Matcher::wants_json`: an Accept header that is valid text and contains
   * `application/json`; an Accept of exactly `application/json` qualifies.
   */
  predicate WantsJson(base: BaseRequest)
    ensures WantsJson(base) ==> AcceptName in base.headers && Contains(base.headers[AcceptName], "application/json")
    ensures HeaderIs(base.headers, AcceptName, "application/json") ==> WantsJson(base)
  {
    ContainsSelf("application/json");
    AcceptName in base.headers
    && VisibleAscii(base.headers[AcceptName])
    && Contains(base.headers[AcceptName], "application/json")
  }

  /** An Accept header that is not valid text never asks for JSON, whatever it holds. */
  lemma InvalidAcceptIsPlain(base: BaseRequest)
    requires AcceptName in base.headers && !VisibleAscii(base.headers[AcceptName])
    ensures !WantsJson(base)
    ensures NotFound(WantsJson(base)).body == DefaultErrorMessage
  {
  }

  /** What serving one request produced: the handler's trace (empty if no handler ran) and the response. */
  datatype Served = Served(trace: seq<Event>, response: Response)

  /** Turning the server's request into the framework's, for a matched route; it may fail. */
  type IntoRequest = (Route, BaseRequest) -> Result<Request, AppError>

  /**
   * `Matcher::handle`: an unmatched request gets a 404 and runs nothing; a
   * matched one whose request cannot be built gets that error rendered;
   * otherwise the route's handler runs and its response, or its rendered
   * error, is the answer.
   */
  function Handle(e: Engine, m: Matcher, base: BaseRequest, intoRequest: IntoRequest): (r: Served)
    ensures Find(e, m, base.httpMethod, base.uri).None? ==> r.trace == [] && r.response.status == NOT_FOUND
    ensures Find(e, m, base.httpMethod, base.uri).Some? ==>
      var route := Find(e, m, base.httpMethod, base.uri).value;
      && (intoRequest(route, base).Err? ==>
          r.trace == [] && r.response == ErrorResponseFor(WantsJson(base), intoRequest(route, base).error))
      && (intoRequest(route, base).Ok? ==>
          var outcome := route.handler(intoRequest(route, base).value);
          && r.trace == outcome.trace
          && (outcome.result.Ok? ==> r.response == outcome.result.value)
          && (outcome.result.Err? ==> r.response == ErrorResponseFor(WantsJson(base), outcome.result.error)))
  {
    var wantsJson := WantsJson(base);
    match Find(e, m, base.httpMethod, base.uri)
    case None => Served([], NotFound(wantsJson))
    case Some(route) =>
      match intoRequest(route, base)
      case Err(error) => Served([], ErrorResponseFor(wantsJson, error))
      case Ok(request) =>
        var outcome := route.handler(request);
        match outcome.result
        case Ok(response) => Served(outcome.trace, response)
        case Err(error) => Served(outcome.trace, ErrorResponseFor(wantsJson, error))
  }

  /** A request no route answers gets a 404 and runs no handler. */
  lemma HandleUnmatched(e: Engine, m: Matcher, base: BaseRequest, intoRequest: IntoRequest)
    requires forall i :: 0 <= i < |m.entries| ==> !Hit(e, m.entries[i], base.httpMethod, base.uri.path)
    ensures Handle(e, m, base, intoRequest).trace == []
    ensures Handle(e, m, base, intoRequest).response.status == NOT_FOUND
  {
    FindFirst(e, m.entries, base.httpMethod, base.uri.path);
  }

  /** A request that cannot be built is answered with its error, and the route is not run. */
  lemma HandleBadRequest(e: Engine, m: Matcher, base: BaseRequest, intoRequest: IntoRequest, i: nat)
    requires FirstHit(e, m.entries, base.httpMethod, base.uri.path, i)
    requires intoRequest(m.entries[i].1, base).Err?
    ensures Handle(e, m, base, intoRequest).trace == []
    ensures Handle(e, m, base, intoRequest).response == ErrorResponseFor(WantsJson(base), intoRequest(m.entries[i].1, base).error)
  {
    FirstHitUnique(e, m.entries, base.httpMethod, base.uri.path, i);
  }

  /** The first matching route handles the request; its response, or its rendered error, is the answer. */
  lemma HandleMatched(e: Engine, m: Matcher, base: BaseRequest, intoRequest: IntoRequest, i: nat)
    requires FirstHit(e, m.entries, base.httpMethod, base.uri.path, i)
    requires intoRequest(m.entries[i].1, base).Ok?
    ensures var outcome := m.entries[i].1.handler(intoRequest(m.entries[i].1, base).value);
      Handle(e, m, base, intoRequest).trace == outcome.trace
      && (outcome.result.Ok? ==> Handle(e, m, base, intoRequest).response == outcome.result.value)
      && (outcome.result.Err? ==> Handle(e, m, base, intoRequest).response == ErrorResponseFor(WantsJson(base), outcome.result.error))
  {
    FirstHitUnique(e, m.entries, base.httpMethod, base.uri.path, i);
  }

  /** `find` returns the route of the first hit. */
  lemma FirstHitUnique(e: Engine, entries: seq<(Regex, Route)>, httpMethod: Method, path: string, i: nat)
    requires FirstHit(e, entries, httpMethod, path, i)
    ensures FindIn(e, entries, httpMethod, path) == Some(entries[i].1)
  {
    FindFirst(e, entries, httpMethod, path);
    var k :| FirstHit(e, entries, httpMethod, path, k) && FindIn(e, entries, httpMethod, path).value == entries[k].1;
    assert k == i;
  }

  /** A segment of letters, digits, `-` and `_`: no `/`, no `:`, no metacharacter. */
  predicate Word(s: string) {
    s != "" && forall i :: 0 <= i < |s| ==> InDefaultClass(s[i])
  }

  lemma WordFacts(s: string)
    requires Word(s)
    ensures RoutePattern.Plain(s) && '/' !in s && !StartsWith(s, ':')
    ensures s[0] != ':' && s[|s| - 1] != ':' && s[|s| - 1] != '/'
    ensures SegmentMatches(AnySegment, s)
  {
    forall i | 0 <= i < |s|
      ensures s[i] != '/'
    {
      assert InDefaultClass(s[i]);
    }
    assert InDefaultClass(s[0]) && InDefaultClass(s[|s| - 1]);
    forall i | 0 <= i < |s|
      ensures !IsMeta(s[i])
    {
      assert InDefaultClass(s[i]);
    }
  }

  /** The routes `get` adds for each template in turn, all with the same handler. */
  function GetRoutes(templates: seq<string>, h: Handler): (routes: seq<Route>)
    ensures |routes| == |templates|
  {
    if |templates| == 0 then []
    else GetRoutes(templates[..|templates| - 1], h) + [NewRoute(templates[|templates| - 1], GET, h)]
  }

  /** Route `i` is the one `get` made of template `i`: its path, GET, the handler, and the template's regex. */
  lemma {:induction false} GetRoutesRegex(templates: seq<string>, h: Handler, i: nat)
    requires i < |templates|
    ensures GetRoutes(templates, h)[i] == NewRoute(templates[i], GET, h)
    decreases |templates|
  {
    var n := |templates| - 1;
    if i < n {
      GetRoutesRegex(templates[..n], h, i);
    }
  }

  /** The templates `/`, `/foo`, `/foo/:bar` and `/foo/bar/`, for any two words in place of `foo` and `bar`. */
  function FourTemplates(foo: string, bar: string): seq<string> {
    ["/", "/" + foo, "/" + foo + "/:" + bar, "/" + foo + "/" + bar + "/"]
  }

  function FourRoutes(h: Handler, foo: string, bar: string): seq<Route> {
    GetRoutes(FourTemplates(foo, bar), h)
  }

  lemma RootRoutePattern(e: Engine)
    ensures TemplateRegex("/", map[]).pattern == Root
  {
    assert TrimMatches("/", '/') == "" by {
      assert "/"[1..] == "";
    }
    RootTemplate(e, "/", map[], "/");
  }

  lemma LiteralRoutePattern(foo: string)
    requires Word(foo)
    ensures TemplateRegex("/" + foo, map[]).pattern == Segments([Literal(foo)])
  {
    WordFacts(foo);
    OneSegmentTemplate(foo);
    OneLiteralPattern("/" + foo, foo, map[]);
  }

  lemma ParameterRoutePattern(foo: string, bar: string)
    requires Word(foo) && Word(bar)
    ensures TemplateRegex("/" + foo + "/:" + bar, map[]).pattern == Segments([Literal(foo), AnySegment])
  {
    WordFacts(foo);
    WordFacts(bar);
    var p := "/" + foo + "/:" + bar;
    assert p == "/" + foo + "/" + (":" + bar);
    TwoSegmentTemplate(foo, ":" + bar);
    TwoSegmentPattern(p, foo, ":" + bar, map[]);
    assert (":" + bar)[1..] == bar;
    assert TrimStartMatches(":" + bar, ':') == bar;
    assert TrimEndMatches(bar, ':') == bar;
  }

  lemma SlashRoutePattern(foo: string, bar: string)
    requires Word(foo) && Word(bar)
    ensures TemplateRegex("/" + foo + "/" + bar + "/", map[]).pattern == Segments([Literal(foo), Literal(bar)])
  {
    WordFacts(foo);
    WordFacts(bar);
    TwoSegmentSlashTemplate(foo, bar);
    TwoSegmentPattern("/" + foo + "/" + bar + "/", foo, bar, map[]);
  }

  /** The regexes of the four routes are the four shapes below, all decided segment by segment. */
  predicate FourShapes(routes: seq<Route>, foo: string, bar: string) {
    |routes| == 4
    && routes[0].regex.pattern == Root
    && routes[1].regex.pattern == Segments([Literal(foo)])
    && routes[2].regex.pattern == Segments([Literal(foo), AnySegment])
    && routes[3].regex.pattern == Segments([Literal(foo), Literal(bar)])
    && Deterministic(routes[1].regex.pattern) && Deterministic(routes[2].regex.pattern)
    && Deterministic(routes[3].regex.pattern)
  }

  lemma FourRouteRegexes(h: Handler, foo: string, bar: string)
    ensures FourRoutes(h, foo, bar)[0].regex == TemplateRegex("/", map[])
    ensures FourRoutes(h, foo, bar)[1].regex == TemplateRegex("/" + foo, map[])
    ensures FourRoutes(h, foo, bar)[2].regex == TemplateRegex("/" + foo + "/:" + bar, map[])
    ensures FourRoutes(h, foo, bar)[3].regex == TemplateRegex("/" + foo + "/" + bar + "/", map[])
  {
    var t := FourTemplates(foo, bar);
    GetRoutesRegex(t, h, 0);
    GetRoutesRegex(t, h, 1);
    GetRoutesRegex(t, h, 2);
    GetRoutesRegex(t, h, 3);
  }

  lemma FourRoutesGet(h: Handler, foo: string, bar: string)
    ensures forall i :: 0 <= i < 4 ==> FourRoutes(h, foo, bar)[i].httpMethod == GET
  {
    var t := FourTemplates(foo, bar);
    forall i | 0 <= i < 4
      ensures FourRoutes(h, foo, bar)[i].httpMethod == GET
    {
      GetRoutesRegex(t, h, i);
    }
  }

  lemma WordsDeterministic(foo: string, bar: string)
    requires Word(foo) && Word(bar)
    ensures Deterministic(Segments([Literal(foo)])) && Deterministic(Segments([Literal(foo), AnySegment]))
    ensures Deterministic(Segments([Literal(foo), Literal(bar)]))
  {
    WordFacts(foo);
    WordFacts(bar);
    assert SegmentWise(Literal(foo)) && SegmentWise(Literal(bar));
  }

  lemma FourPatterns(e: Engine, h: Handler, foo: string, bar: string)
    requires Word(foo) && Word(bar)
    ensures FourShapes(FourRoutes(h, foo, bar), foo, bar)
  {
    FourRouteRegexes(h, foo, bar);
    RootRoutePattern(e);
    LiteralRoutePattern(foo);
    ParameterRoutePattern(foo, bar);
    SlashRoutePattern(foo, bar);
    WordsDeterministic(foo, bar);
  }

  /** Matching lists of one or two pieces against one, two or three segments. */
  lemma SmallSegmentsMatch(p: SegPattern, q: SegPattern, a: string, b: string, c: string)
    ensures SegmentsMatch([p], [a]) <==> SegmentMatches(p, a)
    ensures SegmentsMatch([p, q], [a, b]) <==> SegmentMatches(p, a) && SegmentMatches(q, b)
    ensures !SegmentsMatch([p], [a, b]) && !SegmentsMatch([p, q], [a]) && !SegmentsMatch([p, q], [a, b, c])
  {
    if SegmentMatches(p, a) {
      assert forall i :: 0 <= i < 1 ==> SegmentMatches([p][i], [a][i]);
    }
    if SegmentsMatch([p], [a]) {
      assert SegmentMatches([p][0], [a][0]);
    }
    if SegmentMatches(p, a) && SegmentMatches(q, b) {
      assert forall i :: 0 <= i < 2 ==> SegmentMatches([p, q][i], [a, b][i]);
    }
    if SegmentsMatch([p, q], [a, b]) {
      assert SegmentMatches([p, q][0], [a, b][0]) && SegmentMatches([p, q][1], [a, b][1]);
    }
  }

  /** Whether each of the four regexes matches `path`. */
  predicate FourHits(e: Engine, routes: seq<Route>, path: string, r0: bool, r1: bool, r2: bool, r3: bool)
    requires |routes| == 4
  {
    IsMatch(e, routes[0].regex, path) == r0 && IsMatch(e, routes[1].regex, path) == r1
    && IsMatch(e, routes[2].regex, path) == r2 && IsMatch(e, routes[3].regex, path) == r3
  }

  lemma RootPathHits(e: Engine, routes: seq<Route>, foo: string, bar: string)
    requires FourShapes(routes, foo, bar) && Word(foo) && Word(bar)
    ensures FourHits(e, routes, "/", true, false, false, false)
  {
    MatchRootPath([Literal(foo)]);
    MatchRootPath([Literal(foo), AnySegment]);
    MatchRootPath([Literal(foo), Literal(bar)]);
    SmallSegmentsMatch(Literal(foo), AnySegment, "", "", "");
    SmallSegmentsMatch(Literal(foo), Literal(bar), "", "", "");
  }

  lemma OneSegmentHits(e: Engine, routes: seq<Route>, foo: string, bar: string, x: string)
    requires FourShapes(routes, foo, bar) && Word(foo) && Word(bar) && Word(x)
    ensures FourHits(e, routes, "/" + x, false, x == foo, false, false)
  {
    WordFacts(x);
    MatchOnePath([Literal(foo)], x);
    MatchOnePath([Literal(foo), AnySegment], x);
    MatchOnePath([Literal(foo), Literal(bar)], x);
    SmallSegmentsMatch(Literal(foo), AnySegment, x, "", "");
    SmallSegmentsMatch(Literal(foo), Literal(bar), x, "", "");
  }

  lemma OneSegmentSlashHits(e: Engine, routes: seq<Route>, foo: string, bar: string, x: string)
    requires FourShapes(routes, foo, bar) && Word(foo) && Word(bar) && Word(x)
    ensures FourHits(e, routes, "/" + x + "/", false, x == foo, false, false)
  {
    WordFacts(x);
    MatchOnePathSlash([Literal(foo)], x);
    MatchOnePathSlash([Literal(foo), AnySegment], x);
    MatchOnePathSlash([Literal(foo), Literal(bar)], x);
    SmallSegmentsMatch(Literal(foo), AnySegment, x, "", "");
    SmallSegmentsMatch(Literal(foo), Literal(bar), x, "", "");
  }

  lemma TwoSegmentHits(e: Engine, routes: seq<Route>, foo: string, bar: string, x: string, y: string)
    requires FourShapes(routes, foo, bar) && Word(foo) && Word(bar) && Word(x) && Word(y)
    ensures FourHits(e, routes, "/" + x + "/" + y, false, false, x == foo, x == foo && y == bar)
  {
    WordFacts(x);
    WordFacts(y);
    MatchTwoPath([Literal(foo)], x, y);
    MatchTwoPath([Literal(foo), AnySegment], x, y);
    MatchTwoPath([Literal(foo), Literal(bar)], x, y);
    SmallSegmentsMatch(Literal(foo), AnySegment, x, y, "");
    SmallSegmentsMatch(Literal(foo), Literal(bar), x, y, "");
  }

  lemma TwoSegmentSlashHits(e: Engine, routes: seq<Route>, foo: string, bar: string, x: string, y: string)
    requires FourShapes(routes, foo, bar) && Word(foo) && Word(bar) && Word(x) && Word(y)
    ensures FourHits(e, routes, "/" + x + "/" + y + "/", false, false, x == foo, x == foo && y == bar)
  {
    WordFacts(x);
    WordFacts(y);
    MatchTwoPathSlash([Literal(foo)], x, y);
    MatchTwoPathSlash([Literal(foo), AnySegment], x, y);
    MatchTwoPathSlash([Literal(foo), Literal(bar)], x, y);
    SmallSegmentsMatch(Literal(foo), AnySegment, x, y, "");
    SmallSegmentsMatch(Literal(foo), Literal(bar), x, y, "");
  }

  /** Over a matcher built from GET routes, a GET matches iff some route's regex matches the path. */
  lemma GetMatcherMatches(e: Engine, routes: seq<Route>, path: string)
    requires NewMatcher(e, routes).Ok?
    requires forall i :: 0 <= i < |routes| ==> routes[i].httpMethod == GET
    ensures Matches(e, NewMatcher(e, routes).value, GET, Uri(path, None)) <==>
      exists i :: 0 <= i < |routes| && IsMatch(e, routes[i].regex, path)
  {
    var m := NewMatcher(e, routes).value;
    NewMatcherAllOrNothing(e, routes);
    MatchesIff(e, m, GET, Uri(path, None));
    if exists i :: 0 <= i < |routes| && IsMatch(e, routes[i].regex, path) {
      var i :| 0 <= i < |routes| && IsMatch(e, routes[i].regex, path);
      assert Hit(e, m.entries[i], GET, path);
    }
  }

  /** The matcher over the four routes is built, and matches a path iff one of the four regexes does. */
  lemma FourRoutesMatcher(e: Engine, routes: seq<Route>, foo: string, bar: string, path: string)
    requires FourShapes(routes, foo, bar)
    requires forall i :: 0 <= i < 4 ==> routes[i].httpMethod == GET
    ensures NewMatcher(e, routes).Ok?
    ensures Matches(e, NewMatcher(e, routes).value, GET, Uri(path, None)) <==>
      IsMatch(e, routes[0].regex, path) || IsMatch(e, routes[1].regex, path)
      || IsMatch(e, routes[2].regex, path) || IsMatch(e, routes[3].regex, path)
  {
    assert forall i :: 0 <= i < 4 ==> RouteRegex(e, routes[i]).Ok?;
    NewMatcherAllOrNothing(e, routes);
    GetMatcherMatches(e, routes, path);
    if exists i :: 0 <= i < |routes| && IsMatch(e, routes[i].regex, path) {
      var i :| 0 <= i < |routes| && IsMatch(e, routes[i].regex, path);
      assert i == 0 || i == 1 || i == 2 || i == 3;
    }
  }

  /**
   * The routes `/`, `/foo`, `/foo/:bar` and `/foo/bar/` (with any two
   * distinct words for `foo` and `bar`): the root, `/foo`, `/foo/bar`,
   * `/foo/bar/` and `/foo/<word>` match, and nothing under another first
   * segment does.
   */
  lemma FourRoutesExample(e: Engine, h: Handler, foo: string, bar: string, v: string, baz: string)
    requires Word(foo) && Word(bar) && Word(v) && Word(baz) && foo != bar
    ensures NewMatcher(e, FourRoutes(h, foo, bar)).Ok?
    ensures var m := NewMatcher(e, FourRoutes(h, foo, bar)).value;
      Matches(e, m, GET, Uri("/", None))
      && Matches(e, m, GET, Uri("/" + foo, None))
      && Matches(e, m, GET, Uri("/" + foo + "/" + bar, None))
      && Matches(e, m, GET, Uri("/" + foo + "/" + bar + "/", None))
      && Matches(e, m, GET, Uri("/" + foo + "/" + v, None))
      && !Matches(e, m, GET, Uri("/" + bar, None))
      && !Matches(e, m, GET, Uri("/" + bar + "/", None))
      && !Matches(e, m, GET, Uri("/" + bar + "/" + baz, None))
      && !Matches(e, m, GET, Uri("/" + bar + "/" + baz + "/", None))
  {
    var rs := FourRoutes(h, foo, bar);
    FourPatterns(e, h, foo, bar);
    FourRoutesGet(h, foo, bar);
    RootPathHits(e, rs, foo, bar);
    FourRoutesMatcher(e, rs, foo, bar, "/");
    OneSegmentHits(e, rs, foo, bar, foo);
    FourRoutesMatcher(e, rs, foo, bar, "/" + foo);
    TwoSegmentHits(e, rs, foo, bar, foo, bar);
    FourRoutesMatcher(e, rs, foo, bar, "/" + foo + "/" + bar);
    TwoSegmentSlashHits(e, rs, foo, bar, foo, bar);
    FourRoutesMatcher(e, rs, foo, bar, "/" + foo + "/" + bar + "/");
    TwoSegmentHits(e, rs, foo, bar, foo, v);
    FourRoutesMatcher(e, rs, foo, bar, "/" + foo + "/" + v);
    OneSegmentHits(e, rs, foo, bar, bar);
    FourRoutesMatcher(e, rs, foo, bar, "/" + bar);
    OneSegmentSlashHits(e, rs, foo, bar, bar);
    FourRoutesMatcher(e, rs, foo, bar, "/" + bar + "/");
    TwoSegmentHits(e, rs, foo, bar, bar, baz);
    FourRoutesMatcher(e, rs, foo, bar, "/" + bar + "/" + baz);
    TwoSegmentSlashHits(e, rs, foo, bar, bar, baz);
    FourRoutesMatcher(e, rs, foo, bar, "/" + bar + "/" + baz + "/");
  }

  lemma ExampleWords()
    ensures Word("foo") && Word("bar") && Word("asd123") && Word("baz")
  {
  }

  /**
   * With GET routes `/`, `/foo`, `/foo/:bar` and `/foo/bar/`, the matcher
   * is built, and `/`, `/foo`, `/foo/bar`, `/foo/bar/` and `/foo/asd123`
   * match while `/bar`, `/bar/`, `/bar/baz` and `/bar/baz/` do not.
   */
  lemma MatcherExample(e: Engine, h: Handler)
    ensures FourTemplates("foo", "bar") == ["/", "/foo", "/foo/:bar", "/foo/bar/"]
    ensures NewMatcher(e, FourRoutes(h, "foo", "bar")).Ok?
    ensures var m := NewMatcher(e, FourRoutes(h, "foo", "bar")).value;
      Matches(e, m, GET, Uri("/", None))
      && Matches(e, m, GET, Uri("/foo", None))
      && Matches(e, m, GET, Uri("/foo/bar", None))
      && Matches(e, m, GET, Uri("/foo/bar/", None))
      && Matches(e, m, GET, Uri("/foo/asd123", None))
      && !Matches(e, m, GET, Uri("/bar", None))
      && !Matches(e, m, GET, Uri("/bar/", None))
      && !Matches(e, m, GET, Uri("/bar/baz", None))
      && !Matches(e, m, GET, Uri("/bar/baz/", None))
  {
    ExampleWords();
    FourRoutesExample(e, h, "foo", "bar", "asd123", "baz");
    ExamplePaths();
  }

  lemma ExamplePaths()
    ensures "/" + "foo" + "/:" + "bar" == "/foo/:bar"
    ensures "/" + "foo" == "/foo"
    ensures "/" + "foo" + "/" + "bar" == "/foo/bar"
    ensures "/" + "foo" + "/" + "bar" + "/" == "/foo/bar/"
    ensures "/" + "foo" + "/" + "asd123" == "/foo/asd123"
    ensures "/" + "bar" == "/bar"
    ensures "/" + "bar" + "/" == "/bar/"
    ensures "/" + "bar" + "/" + "baz" == "/bar/baz"
    ensures "/" + "bar" + "/" + "baz" + "/" == "/bar/baz/"
  {
  }
}
