/**
 * The router of the first generation of the framework
 * (src/routing/router.rs): a list of routes that grows in place as routes
 * are added, queried by method and path, and turned into a matcher.
 */
module LegacyRouter {
  import opened Wrappers
  import opened HttpTypes
  import opened RoutePattern
  import opened LegacyRouting
  import opened LegacyMatcher
  import RouteMatcher

  /** Some route answers `httpMethod` on exactly the template `path`. */
  predicate Registered(routes: seq<Route>, path: string, httpMethod: Method) {
    exists i :: 0 <= i < |routes| && routes[i].httpMethod == httpMethod && routes[i].path == path
  }

  class Router {
    var routes: seq<Route>

    /** `Router::new`: the given routes, in the given order. */
    constructor (routes: seq<Route>)
      ensures this.routes == routes
    {
      this.routes := routes;
    }

    /** `Router::default`: no routes. */
    constructor Default()
      ensures routes == []
    {
      routes := [];
    }

    /** `add_route`: the route goes at the end; earlier routes are untouched. */
    method AddRoute(route: Route)
      modifies this
      ensures routes == old(routes) + [route]
    {
      routes := routes + [route];
    }

    /** `has_route`: a scan for a route with an equal method and exactly the same path. */
    method HasRoute(path: string, httpMethod: Method) returns (found: bool)
      ensures found <==> Registered(routes, path, httpMethod)
    {
      found := false;
      var i := 0;
      while i < |routes|
        invariant 0 <= i <= |routes|
        invariant !found
        invariant forall j :: 0 <= j < i ==> !(routes[j].httpMethod == httpMethod && routes[j].path == path)
      {
        if routes[i].httpMethod == httpMethod && routes[i].path == path {
          found := true;
          return;
        }
        i := i + 1;
      }
    }

    /** `get`: exactly one GET route for `path`, added at the end, after which `has_route(path, GET)` holds. */
    method Get(path: string, handler: Handler)
      modifies this
      ensures routes == old(routes) + [Route(path, GET, handler)]
      ensures Registered(routes, path, GET)
    {
      AddRoute(Route(path, GET, handler));
      assert routes[|routes| - 1] == Route(path, GET, handler);
    }

    /** `into_matcher`: a matcher over the routes in order, or the first regex error. */
    function IntoMatcher(e: Engine): (r: Result<Matcher, RegexError>)
      reads this
      ensures r.Ok? <==> forall i :: 0 <= i < |routes| ==> ToRegex(e, routes[i]).Ok?
      ensures r.Ok? ==>
        && |r.value.entries| == |routes|
        && forall i :: 0 <= i < |routes| ==> r.value.entries[i] == (ToRegex(e, routes[i]).value, routes[i])
    {
      NewMatcherAllOrNothing(e, routes);
      TryFrom(e, routes)
    }
  }

  /** Registering a route keeps every earlier registration. */
  lemma AddKeepsRegistered(routes: seq<Route>, route: Route)
    ensures forall p, m :: Registered(routes, p, m) ==> Registered(routes + [route], p, m)
    ensures Registered(routes + [route], route.path, route.httpMethod)
  {
    var after := routes + [route];
    assert after[|routes|] == route;
    forall p, m | Registered(routes, p, m)
      ensures Registered(after, p, m)
    {
      var i :| 0 <= i < |routes| && routes[i].httpMethod == m && routes[i].path == p;
      assert after[i] == routes[i];
    }
  }

  /**
   * The routers of the two tests: a default router given a GET route for
   * each template in turn holds exactly those routes, in that order.
   */
  method GetAll(h: Handler, templates: seq<string>) returns (router: Router)
    ensures router.routes == GetRoutes(templates, h)
    ensures forall i :: 0 <= i < |templates| ==> Registered(router.routes, templates[i], GET)
  {
    router := new Router.Default();
    for k := 0 to |templates|
      invariant router.routes == GetRoutes(templates[..k], h)
    {
      router.Get(templates[k], h);
      assert GetRoutes(templates[..k + 1], h) == GetRoutes(templates[..k], h) + [Route(templates[k], GET, h)];
    }
    assert templates[..|templates|] == templates;
    forall i | 0 <= i < |templates|
      ensures Registered(router.routes, templates[i], GET)
    {
      assert router.routes[i] == Route(templates[i], GET, h);
    }
  }

  /** The matcher test's router: `/`, `/foo`, `/foo/:bar` and `/foo/bar/` as GET routes, turned into a matcher. */
  method MatcherTest(e: Engine, h: Handler) returns (m: Result<Matcher, RegexError>)
    ensures m == NewMatcher(e, GetRoutes(RouteMatcher.FourTemplates("foo", "bar"), h))
  {
    var router := GetAll(h, RouteMatcher.FourTemplates("foo", "bar"));
    m := router.IntoMatcher(e);
  }

  /** The parameter test's router: the single GET route `/foo/:bar`, turned into a matcher. */
  method ParameterTest(e: Engine, h: Handler) returns (m: Result<Matcher, RegexError>)
    ensures m == NewMatcher(e, [Route("/foo/:bar", GET, h)])
  {
    var router := GetAll(h, ["/foo/:bar"]);
    assert router.routes == [Route("/foo/:bar", GET, h)];
    m := router.IntoMatcher(e);
  }
}
