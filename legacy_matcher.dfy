/**
 * The route matcher of the first generation of the framework
 * (src/routing/matcher.rs): the routes' regexes compiled once, all or
 * nothing, and searched front to back for the first route whose regex
 * matches the path and whose method is the request's.
 */
module LegacyMatcher {
  import opened Wrappers
  import opened HttpTypes
  import opened RoutePattern
  import opened LegacyRouting
  import RouteMatcher
  import Routing
  import Middleware

  datatype Matcher = Matcher(entries: seq<(Regex, Route)>)

  /** A fallible compiler of route regexes. */
  type Compiler = Route -> Result<Regex, RegexError>

  /** Collects `Ok((compile(route)?, route))` per route, stopping at the first error. */
  function Collect(compile: Compiler, routes: seq<Route>): Result<Matcher, RegexError>
    decreases |routes|
  {
    if |routes| == 0 then Ok(Matcher([]))
    else
      match compile(routes[0])
      case Err(x) => Err(x)
      case Ok(regex) =>
        match Collect(compile, routes[1..])
        case Err(x) => Err(x)
        case Ok(m) => Ok(Matcher([(regex, routes[0])] + m.entries))
  }

  /** `Matcher::new`: each route's regex is `route.to_regex()`. */
  function NewMatcher(e: Engine, routes: seq<Route>): Result<Matcher, RegexError> {
    Collect(route => ToRegex(e, route), routes)
  }

  /** Route `i` is the first whose regex does not compile. */
  predicate FirstFailure(compile: Compiler, routes: seq<Route>, i: int) {
    0 <= i < |routes| && compile(routes[i]).Err?
    && forall j :: 0 <= j < i ==> compile(routes[j]).Ok?
  }

  lemma {:induction false} CollectAllOrNothing(compile: Compiler, routes: seq<Route>)
    ensures Collect(compile, routes).Ok? <==> forall i :: 0 <= i < |routes| ==> compile(routes[i]).Ok?
    ensures Collect(compile, routes).Ok? ==>
      |Collect(compile, routes).value.entries| == |routes|
      && forall i :: 0 <= i < |routes| ==>
        Collect(compile, routes).value.entries[i] == (compile(routes[i]).value, routes[i])
    ensures Collect(compile, routes).Err? ==>
      exists i :: FirstFailure(compile, routes, i) && Collect(compile, routes).error == compile(routes[i]).error
    decreases |routes|
  {
    if |routes| > 0 {
      CollectAllOrNothing(compile, routes[1..]);
      var rest := Collect(compile, routes[1..]);
      if compile(routes[0]).Err? {
        assert FirstFailure(compile, routes, 0);
      } else if rest.Err? {
        var i :| FirstFailure(compile, routes[1..], i) && rest.error == compile(routes[1..][i]).error;
        assert FirstFailure(compile, routes, i + 1);
        assert !compile(routes[1..][i]).Ok?;
      } else {
        forall i | 0 <= i < |routes|
          ensures compile(routes[i]).Ok?
        {
          if i > 0 {
            assert routes[1..][i - 1] == routes[i];
          }
        }
      }
      if Collect(compile, routes).Ok? {
        forall i | 0 <= i < |routes| - 1
          ensures compile(routes[1..][i]).Ok?
        {
          assert routes[1..][i] == routes[i + 1];
        }
      }
    }
  }

  /**
   * `new` is all or nothing: it succeeds iff every route's regex compiles,
   * and then keeps one entry per route, in route order, holding the route's
   * regex; otherwise it returns the error of the first route that fails.
   */
  lemma NewMatcherAllOrNothing(e: Engine, routes: seq<Route>)
    ensures NewMatcher(e, routes).Ok? <==> forall i :: 0 <= i < |routes| ==> ToRegex(e, routes[i]).Ok?
    ensures NewMatcher(e, routes).Ok? ==>
      |NewMatcher(e, routes).value.entries| == |routes|
      && forall i :: 0 <= i < |routes| ==>
        NewMatcher(e, routes).value.entries[i] == (ToRegex(e, routes[i]).value, routes[i])
    ensures NewMatcher(e, routes).Err? ==>
      exists i :: (0 <= i < |routes| && ToRegex(e, routes[i]).Err? && NewMatcher(e, routes).error == ToRegex(e, routes[i]).error
        && forall j :: 0 <= j < i ==> ToRegex(e, routes[j]).Ok?)
  {
    CollectAllOrNothing(route => ToRegex(e, route), routes);
  }

  /** Entry `entry` answers `httpMethod` on `path`. */
  predicate Hit(e: Engine, entry: (Regex, Route), httpMethod: Method, path: string) {
    IsMatch(e, entry.0, path) && entry.1.httpMethod == httpMethod
  }

  function FindIn(e: Engine, entries: seq<(Regex, Route)>, httpMethod: Method, path: string): Option<Route>
    decreases |entries|
  {
    if |entries| == 0 then None
    else if Hit(e, entries[0], httpMethod, path) then Some(entries[0].1)
    else FindIn(e, entries[1..], httpMethod, path)
  }

  /**
   * `Matcher::find`: the route of the first entry, in list order, whose
   * pattern matches the path and whose method is equal; None if none does.
   */
  function Find(e: Engine, m: Matcher, httpMethod: Method, uri: Uri): (r: Option<Route>)
    ensures r.None? <==> forall i :: 0 <= i < |m.entries| ==> !Hit(e, m.entries[i], httpMethod, uri.path)
    ensures r.Some? ==> exists i :: FirstHit(e, m.entries, httpMethod, uri.path, i) && r.value == m.entries[i].1
  {
    FindFirst(e, m.entries, httpMethod, uri.path);
    FindIn(e, m.entries, httpMethod, uri.path)
  }

  /** `Matcher::matches`. */
  predicate Matches(e: Engine, m: Matcher, httpMethod: Method, uri: Uri) {
    Find(e, m, httpMethod, uri).Some?
  }

  /** Entry `i` is the first to answer. */
  predicate FirstHit(e: Engine, entries: seq<(Regex, Route)>, httpMethod: Method, path: string, i: int) {
    0 <= i < |entries| && Hit(e, entries[i], httpMethod, path)
    && forall j :: 0 <= j < i ==> !Hit(e, entries[j], httpMethod, path)
  }

  /** `find` returns the route of the first entry that answers, or None if none does. */
  lemma {:induction false} FindFirst(e: Engine, entries: seq<(Regex, Route)>, httpMethod: Method, path: string)
    ensures FindIn(e, entries, httpMethod, path).None? <==>
      forall i :: 0 <= i < |entries| ==> !Hit(e, entries[i], httpMethod, path)
    ensures FindIn(e, entries, httpMethod, path).Some? ==>
      exists i :: FirstHit(e, entries, httpMethod, path, i) && FindIn(e, entries, httpMethod, path).value == entries[i].1
    decreases |entries|
  {
    if |entries| > 0 {
      FindFirst(e, entries[1..], httpMethod, path);
      if Hit(e, entries[0], httpMethod, path) {
        assert FirstHit(e, entries, httpMethod, path, 0);
      } else {
        if FindIn(e, entries[1..], httpMethod, path).Some? {
          var i :| FirstHit(e, entries[1..], httpMethod, path, i)
            && FindIn(e, entries[1..], httpMethod, path).value == entries[1..][i].1;
          assert FirstHit(e, entries, httpMethod, path, i + 1);
        } else {
          forall i | 0 <= i < |entries|
            ensures !Hit(e, entries[i], httpMethod, path)
          {
            if i > 0 {
              assert entries[1..][i - 1] == entries[i];
            }
          }
        }
      }
    }
  }

  /** `matches` holds iff some entry answers the method on the path. */
  lemma MatchesIff(e: Engine, m: Matcher, httpMethod: Method, uri: Uri)
    ensures Matches(e, m, httpMethod, uri) <==> exists i :: 0 <= i < |m.entries| && Hit(e, m.entries[i], httpMethod, uri.path)
  {
    FindFirst(e, m.entries, httpMethod, uri.path);
  }

  /** `TryFrom<Router>`: the matcher of the router's routes. */
  function TryFrom(e: Engine, routes: seq<Route>): (r: Result<Matcher, RegexError>)
    ensures r.Ok? <==> forall i :: 0 <= i < |routes| ==> ToRegex(e, routes[i]).Ok?
    ensures r.Ok? ==> |r.value.entries| == |routes| && forall i :: 0 <= i < |routes| ==> r.value.entries[i].1 == routes[i]
  {
    NewMatcherAllOrNothing(e, routes);
    NewMatcher(e, routes)
  }

  /** A newer-generation route standing for `route`: the same template, regex and method. */
  predicate Corresponds(route: Route, newer: Routing.Route) {
    newer.regex == TemplateRegex(route.path, map[]) && newer.httpMethod == route.httpMethod
  }

  /** A route and its newer counterpart compile alike. */
  lemma RegexAgrees(e: Engine, route: Route, newer: Routing.Route)
    requires Corresponds(route, newer)
    ensures ToRegex(e, route).Ok? <==> RouteMatcher.RouteRegex(e, newer).Ok?
    ensures ToRegex(e, route).Ok? ==> ToRegex(e, route).value == newer.regex
  {
    SameAsUnconstrained(route);
  }

  /**
   * The two generations of matchers agree on routes without constraints:
   * over corresponding route lists, one is built iff the other is, and they
   * match the same requests.
   */
  lemma GenerationsAgree(e: Engine, routes: seq<Route>, newer: seq<Routing.Route>, httpMethod: Method, uri: Uri)
    requires |routes| == |newer| && forall i :: 0 <= i < |routes| ==> Corresponds(routes[i], newer[i])
    ensures NewMatcher(e, routes).Ok? <==> RouteMatcher.NewMatcher(e, newer).Ok?
    ensures NewMatcher(e, routes).Ok? ==>
      var m := NewMatcher(e, routes).value;
      var n := RouteMatcher.NewMatcher(e, newer).value;
      Matches(e, m, httpMethod, uri) == RouteMatcher.Matches(e, n, httpMethod, uri)
  {
    NewMatcherAllOrNothing(e, routes);
    RouteMatcher.NewMatcherAllOrNothing(e, newer);
    forall i | 0 <= i < |routes|
      ensures ToRegex(e, routes[i]).Ok? <==> RouteMatcher.RouteRegex(e, newer[i]).Ok?
      ensures ToRegex(e, routes[i]).Ok? ==> ToRegex(e, routes[i]).value == newer[i].regex
    {
      RegexAgrees(e, routes[i], newer[i]);
    }
    if NewMatcher(e, routes).Ok? {
      SameHits(e, NewMatcher(e, routes).value, RouteMatcher.NewMatcher(e, newer).value, httpMethod, uri);
    }
  }

  /** Two matchers whose entries pair the same regexes with the same methods match the same requests. */
  lemma SameHits(e: Engine, m: Matcher, n: RouteMatcher.Matcher, httpMethod: Method, uri: Uri)
    requires |m.entries| == |n.entries|
    requires forall i :: 0 <= i < |m.entries| ==>
      m.entries[i].0 == n.entries[i].0 && m.entries[i].1.httpMethod == n.entries[i].1.httpMethod
    ensures Matches(e, m, httpMethod, uri) == RouteMatcher.Matches(e, n, httpMethod, uri)
  {
    MatchesIff(e, m, httpMethod, uri);
    RouteMatcher.MatchesIff(e, n, httpMethod, uri);
    forall i | 0 <= i < |m.entries|
      ensures Hit(e, m.entries[i], httpMethod, uri.path) <==> RouteMatcher.Hit(e, n.entries[i], httpMethod, uri.path)
    {
    }
  }

  /** The routes `get` adds for each template in turn, all with the same handler. */
  function GetRoutes(templates: seq<string>, h: Handler): (routes: seq<Route>)
    ensures |routes| == |templates|
    ensures forall i :: 0 <= i < |templates| ==> routes[i] == Route(templates[i], GET, h)
  {
    seq(|templates|, i requires 0 <= i < |templates| => Route(templates[i], GET, h))
  }

  /** The same templates registered with `get` in both generations give corresponding routes. */
  lemma GetRoutesCorrespond(templates: seq<string>, h: Handler, newer: Middleware.Handler)
    ensures forall i :: 0 <= i < |templates| ==>
      Corresponds(GetRoutes(templates, h)[i], RouteMatcher.GetRoutes(templates, newer)[i])
  {
    forall i | 0 <= i < |templates|
      ensures Corresponds(GetRoutes(templates, h)[i], RouteMatcher.GetRoutes(templates, newer)[i])
    {
      RouteMatcher.GetRoutesRegex(templates, newer, i);
    }
  }

  /**
   * With GET routes `/`, `/foo`, `/foo/:bar` and `/foo/bar/`, the matcher
   * is built, and `/`, `/foo`, `/foo/bar`, `/foo/bar/` and `/foo/asd123`
   * match while `/bar`, `/bar/`, `/bar/baz` and `/bar/baz/` do not.
   */
  lemma MatcherExample(e: Engine, h: Handler)
    ensures RouteMatcher.FourTemplates("foo", "bar") == ["/", "/foo", "/foo/:bar", "/foo/bar/"]
    ensures NewMatcher(e, GetRoutes(RouteMatcher.FourTemplates("foo", "bar"), h)).Ok?
    ensures var m := NewMatcher(e, GetRoutes(RouteMatcher.FourTemplates("foo", "bar"), h)).value;
      Matches(e, m, GET, Uri("/", None))
      && Matches(e, m, GET, Uri("/foo", None))
      && Matches(e, m, GET, Uri("/foo/bar", None))
      && Matches(e, m, GET, Uri("/foo/bar/", None))
      && Matches(e, m, GET, Uri("/foo/asd123", None))
      && !Matches(e, m, GET, Uri("/bar", None))
      && !Matches(e, m, GET, Uri("/bar/", None))
      && !Matches(e, m, GET, Uri("/bar/baz", None))
      && !Matches(e, m, GET, Uri("/bar/baz/", None))
  {
    var t := RouteMatcher.FourTemplates("foo", "bar");
    var newer := Routing.NotFoundHandler();
    RouteMatcher.MatcherExample(e, newer);
    GetRoutesCorrespond(t, h, newer);
    var rs := GetRoutes(t, h);
    var ns := RouteMatcher.GetRoutes(t, newer);
    GenerationsAgree(e, rs, ns, GET, Uri("/", None));
    GenerationsAgree(e, rs, ns, GET, Uri("/foo", None));
    GenerationsAgree(e, rs, ns, GET, Uri("/foo/bar", None));
    GenerationsAgree(e, rs, ns, GET, Uri("/foo/bar/", None));
    GenerationsAgree(e, rs, ns, GET, Uri("/foo/asd123", None));
    GenerationsAgree(e, rs, ns, GET, Uri("/bar", None));
    GenerationsAgree(e, rs, ns, GET, Uri("/bar/", None));
    GenerationsAgree(e, rs, ns, GET, Uri("/bar/baz", None));
    GenerationsAgree(e, rs, ns, GET, Uri("/bar/baz/", None));
  }

  /** The regex of `/foo/:bar` compiles: a literal segment and a default-class segment. */
  lemma ParameterRouteRegex(e: Engine, h: Handler, foo: string, bar: string)
    requires RouteMatcher.Word(foo) && RouteMatcher.Word(bar)
    ensures var r := ToRegex(e, Route("/" + foo + "/:" + bar, GET, h));
      r.Ok? && r.value.pattern == Segments([Literal(foo), AnySegment])
  {
    RouteMatcher.WordFacts(foo);
    RouteMatcher.ParameterRoutePattern(foo, bar);
    var ps := [Literal(foo), AnySegment];
    assert Deterministic(Segments(ps)) by {
      assert SegmentWise(ps[0]) && SegmentWise(ps[1]);
    }
  }

  /** `/<foo>/<v>` is matched by a literal `foo` followed by a default-class segment. */
  lemma ParameterPathMatches(e: Engine, regex: Regex, foo: string, v: string)
    requires RouteMatcher.Word(foo) && RouteMatcher.Word(v)
    requires regex.pattern == Segments([Literal(foo), AnySegment])
    ensures IsMatch(e, regex, "/" + foo + "/" + v)
  {
    RouteMatcher.WordFacts(foo);
    RouteMatcher.WordFacts(v);
    var ps := [Literal(foo), AnySegment];
    assert Deterministic(Segments(ps)) by {
      assert SegmentWise(ps[0]) && SegmentWise(ps[1]);
    }
    MatchTwoPath(ps, foo, v);
    RouteMatcher.SmallSegmentsMatch(Literal(foo), AnySegment, foo, v, "");
  }

  /**
   * A single GET route `/foo/:bar`: the request `GET /foo/<v>` is matched,
   * `find` returns that route, and its parameters are exactly `{bar: v}`.
   */
  lemma OneParameterRoute(e: Engine, h: Handler, foo: string, bar: string, v: string)
    requires RouteMatcher.Word(foo) && RouteMatcher.Word(bar) && RouteMatcher.Word(v)
    ensures var route := Route("/" + foo + "/:" + bar, GET, h);
      var uri := Uri("/" + foo + "/" + v, None);
      && NewMatcher(e, [route]).Ok?
      && Matches(e, NewMatcher(e, [route]).value, GET, uri)
      && Find(e, NewMatcher(e, [route]).value, GET, uri) == Some(route)
      && LegacyRouting.Parameters(route, uri) == map[bar := v]
  {
    var route := Route("/" + foo + "/:" + bar, GET, h);
    var uri := Uri("/" + foo + "/" + v, None);
    ParameterRouteRegex(e, h, foo, bar);
    NewMatcherAllOrNothing(e, [route]);
    var m := NewMatcher(e, [route]).value;
    ParameterPathMatches(e, m.entries[0].0, foo, v);
    assert Hit(e, m.entries[0], GET, uri.path);
    RouteMatcher.WordFacts(foo);
    RouteMatcher.WordFacts(bar);
    RouteMatcher.WordFacts(v);
    TwoSegmentParameters(foo, bar, foo, v);
  }

  /**
   * The parametrised-route example: `/foo/:bar` matches `GET /foo/asd123`,
   * `find` returns it, and its parameters are exactly `{bar: asd123}`.
   */
  lemma ParameterExample(e: Engine, h: Handler)
    ensures var route := Route("/foo/:bar", GET, h);
      var uri := Uri("/foo/asd123", None);
      && NewMatcher(e, [route]).Ok?
      && Matches(e, NewMatcher(e, [route]).value, GET, uri)
      && Find(e, NewMatcher(e, [route]).value, GET, uri) == Some(route)
      && LegacyRouting.Parameters(route, uri) == map["bar" := "asd123"]
  {
    RouteMatcher.ExampleWords();
    OneParameterRoute(e, h, "foo", "bar", "asd123");
    RouteMatcher.ExamplePaths();
  }
}
