/**
 * Routes of the first generation of the framework (src/routing/route.rs):
 * a path template, a method and a handler. The regex of a route is built on
 * demand from its template; every `:name` segment becomes the default class
 * `[a-zA-Z0-9-_]+` (there are no per-route constraints), and a request for
 * the route is made from the server's request, the route parameters taken
 * from the path.
 */
module LegacyRouting {
  import opened Wrappers
  import opened Strings
  import opened HttpTypes
  import opened RoutePattern
  import opened LegacyRequest
  import opened LegacyResponse

  /** A handler answers a request with a response or an error, kept as its text. */
  type Handler = Request -> Result<Response, string>

  /** `Route::new` stores the three fields as given. */
  datatype Route = Route(path: string, httpMethod: Method, handler: Handler)

  /** The pattern piece of one template segment. */
  function SegmentSource(segment: string): string {
    if StartsWith(segment, ':') then DefaultParameterClass else segment
  }

  function SegmentSources(segments: seq<string>): (r: seq<string>)
    ensures |r| == |segments|
  {
    seq(|segments|, i requires 0 <= i < |segments| => SegmentSource(segments[i]))
  }

  /** `Route::to_regex_string`: anchored at both ends, `^/` first and `$` last. */
  function ToRegexString(route: Route): (r: string)
    ensures |r| >= 3 && r[..2] == "^/" && r[|r| - 1] == '$'
  {
    var p := Join(SegmentSources(PathSegments(route.path)), "/");
    Anchored(p);
    if p == "" then "^/$" else "^/" + p + "/?$"
  }

  /**
   * The two generations compile a template alike: the pattern is the one the
   * newer compiler gives the same template when no constraint is registered.
   */
  lemma SameAsUnconstrained(route: Route)
    ensures ToRegexString(route) == RoutePattern.ToRegexString(route.path, map[])
  {
    SameSources(route.path);
    assert Join(SegmentSources(PathSegments(route.path)), "/") == RegexPath(route.path, map[]);
  }

  /** Segment by segment, the older pieces are the newer ones without constraints. */
  lemma SameSources(path: string)
    ensures Sources(SegmentPatterns(path, map[])) == SegmentSources(PathSegments(path))
  {
    var segs := PathSegments(path);
    var ps := SegmentPatterns(path, map[]);
    forall i | 0 <= i < |segs|
      ensures Sources(ps)[i] == SegmentSources(segs)[i]
    {
      assert ps[i] == SegmentPattern(segs[i], map[]);
    }
  }

  /**
   * An empty template (nothing but `/`) compiles to `^/$`; any other is
   * `^/`, its segments joined by `/` with every `:` segment replaced by the
   * default class, and `/?$`.
   */
  lemma ToRegexStringShape(route: Route)
    ensures TrimMatches(route.path, '/') == "" ==> ToRegexString(route) == "^/$"
    ensures var p := Join(SegmentSources(PathSegments(route.path)), "/");
      p != "" ==> ToRegexString(route) == "^/" + p + "/?$"
    ensures forall i :: 0 <= i < |PathSegments(route.path)| && StartsWith(PathSegments(route.path)[i], ':') ==>
      SegmentSources(PathSegments(route.path))[i] == DefaultParameterClass
  {
    if TrimMatches(route.path, '/') == "" {
      SplitEmpty('/');
      assert PathSegments(route.path) == [""];
      assert SegmentSources([""]) == [""];
    }
  }

  /** `/a/:b` compiles to `^/a/[a-zA-Z0-9-_]+/?$`, whatever the parameter's name. */
  lemma ParameterTemplateLegacy(a: string, b: string, m: Method, h: Handler)
    requires a != "" && b != "" && '/' !in a && '/' !in b && b[|b| - 1] != '/'
    requires a[0] != ':' && b[0] != ':' && b[|b| - 1] != ':'
    ensures ToRegexString(Route("/" + a + "/:" + b, m, h)) == "^/" + a + "/" + DefaultParameterClass + "/?$"
  {
    SameAsUnconstrained(Route("/" + a + "/:" + b, m, h));
    ParameterTemplate(a, b, map[]);
  }

  /** `Route::to_regex`: the engine compiles the pattern string, and may refuse it. */
  function ToRegex(e: Engine, route: Route): (r: Result<Regex, RegexError>)
    ensures r.Ok? ==> r.value.source == ToRegexString(route) && r.value == TemplateRegex(route.path, map[])
    ensures r.Err? ==> r.error == RegexError(ToRegexString(route))
    ensures r.Err? <==> !Deterministic(CompilePattern(route.path, map[])) && !e.accepts(ToRegexString(route))
  {
    SameAsUnconstrained(route);
    NewRegex(e, route.path, map[])
  }

  /**
   * `Route::parameters`: the aligned `:` segments of the template, named
   * without their `:`, each bound to the path segment beside the last
   * segment that names it.
   */
  function Parameters(route: Route, uri: Uri): (r: map<string, string>)
    ensures forall name :: name in r <==> exists i :: NamesAt(PathSegments(route.path), PathSegments(uri.path), i, name)
    ensures forall name :: name in r ==> exists i ::
      NamesAt(PathSegments(route.path), PathSegments(uri.path), i, name) && r[name] == PathSegments(uri.path)[i]
      && forall k :: i < k ==> !NamesAt(PathSegments(route.path), PathSegments(uri.path), k, name)
  {
    var t := PathSegments(route.path);
    var u := PathSegments(uri.path);
    var m := RoutePattern.Parameters(route.path, uri.path);
    forall name
      ensures name in m <==> exists i :: NamesAt(t, u, i, name)
    {
      ParametersDomain(route.path, uri.path, name);
    }
    forall name | name in m
      ensures exists i :: NamesAt(t, u, i, name) && m[name] == u[i] && forall k :: i < k ==> !NamesAt(t, u, k, name)
    {
      var i := ParametersValue(route.path, uri.path, name);
    }
    m
  }

  /**
   * `Route::to_request`: method, URI and version are copied and the route
   * parameters taken from the path; the headers and the body are left empty
   * whatever the request carried, so such a request is never JSON and never
   * asks for it.
   */
  function ToRequest(route: Route, base: BaseRequest): (r: Request)
    ensures r.httpMethod == base.httpMethod && r.uri == base.uri && r.version == base.version
    ensures r.routeParameters == Parameters(route, base.uri)
    ensures r.headers == map[] && r.body == ""
    ensures !r.IsJson() && !r.WantsJson()
  {
    Request(base.httpMethod, base.uri, base.version, map[], "", Parameters(route, base.uri))
  }
}
