/**
 * The router (valar/src/routing/router.rs): a list of routes that grows in
 * place as routes are added, queried by method and path, and turned into a
 * matcher.
 */
module HttpRouter {
  import opened Wrappers
  import opened HttpTypes
  import opened Middleware
  import opened RoutePattern
  import opened Routing
  import opened RouteMatcher

  /** Some route answers `httpMethod` on exactly the template `path`. */
  predicate Registered(routes: seq<Route>, path: string, httpMethod: Method) {
    exists i :: 0 <= i < |routes| && routes[i].httpMethod == httpMethod && routes[i].path == path
  }

  class Router {
    var routes: seq<Route>

    /** `Router::new`: the given routes, in the given order. */
    constructor (routes: seq<Route>)
      ensures this.routes == routes
    {
      this.routes := routes;
    }

    /** `Router::default`: no routes. */
    constructor Default()
      ensures routes == []
    {
      routes := [];
    }

    /** `add_route`: the route goes at the end; earlier routes are untouched. */
    method AddRoute(route: Route)
      modifies this
      ensures routes == old(routes) + [route]
    {
      routes := routes + [route];
    }

    /** `has_route`: a scan for a route with an equal method and exactly the same path. */
    method HasRoute(path: string, httpMethod: Method) returns (found: bool)
      ensures found <==> Registered(routes, path, httpMethod)
    {
      found := false;
      var i := 0;
      while i < |routes|
        invariant 0 <= i <= |routes|
        invariant !found
        invariant forall j :: 0 <= j < i ==> !(routes[j].httpMethod == httpMethod && routes[j].path == path)
      {
        if routes[i].httpMethod == httpMethod && routes[i].path == path {
          found := true;
          return;
        }
        i := i + 1;
      }
    }

    /** `get`: exactly one GET route for `path`, added at the end. */
    method Get(path: string, handler: Handler)
      modifies this
      ensures routes == old(routes) + [NewRoute(path, GET, handler)]
      ensures Registered(routes, path, GET)
    {
      AddRoute(NewRoute(path, GET, handler));
      assert routes[|routes| - 1] == NewRoute(path, GET, handler);
    }

    /**
     * `through`: hands the router to a callback once and returns it. The
     * callback is modelled by what it does to the route list.
     */
    method Through(callback: seq<Route> -> seq<Route>) returns (self: Router)
      modifies this
      ensures self == this && routes == callback(old(routes))
    {
      routes := callback(routes);
      self := this;
    }

    /**
     * `into_iter`: the routes, front to back. The loop stands for draining
     * the `Vec`'s iterator, one route per step.
     */
    method IntoIter() returns (items: seq<Route>)
      ensures items == routes
    {
      items := [];
      for i := 0 to |routes|
        invariant items == routes[..i]
      {
        assert routes[..i + 1] == routes[..i] + [routes[i]];
        items := items + [routes[i]];
      }
      assert routes[..|routes|] == routes;
    }

    /** `into_matcher`: a matcher over the routes in order, or the first regex error. */
    function IntoMatcher(e: Engine): (r: Result<Matcher, RegexError>)
      reads this
      ensures r.Ok? <==> forall i :: 0 <= i < |routes| ==> RouteRegex(e, routes[i]).Ok?
      ensures r.Ok? ==>
        && |r.value.entries| == |routes|
        && forall i :: 0 <= i < |routes| ==> r.value.entries[i] == (routes[i].regex, routes[i])
    {
      NewMatcherAllOrNothing(e, routes);
      NewMatcher(e, routes)
    }
  }

  /** Registering `path` as GET on a router makes `has_route(path, GET)` true, whatever was there. */
  lemma GetRegisters(routes: seq<Route>, path: string, handler: Handler)
    ensures Registered(routes + [NewRoute(path, GET, handler)], path, GET)
    ensures forall p, m :: Registered(routes, p, m) ==> Registered(routes + [NewRoute(path, GET, handler)], p, m)
  {
    var after := routes + [NewRoute(path, GET, handler)];
    assert after[|routes|] == NewRoute(path, GET, handler);
    forall p, m | Registered(routes, p, m)
      ensures Registered(after, p, m)
    {
      var i :| 0 <= i < |routes| && routes[i].httpMethod == m && routes[i].path == p;
      assert after[i] == routes[i];
    }
  }

  /** One `get` more is one route more, at the end. */
  lemma GetRoutesSnoc(t: seq<string>, k: nat, h: Handler)
    requires k < |t|
    ensures GetRoutes(t[..k + 1], h) == GetRoutes(t[..k], h) + [NewRoute(t[k], GET, h)]
  {
    assert t[..k + 1][..k] == t[..k];
  }

  /**
   * The router of the matcher test: a default router given a GET route for
   * each template in turn (there `/`, `/foo`, `/foo/:bar` and `/foo/bar/`)
   * holds exactly those routes in that order, and iterates them in that
   * order.
   */
  method TestRouter(h: Handler, t: seq<string>) returns (router: Router, items: seq<Route>)
    ensures router.routes == GetRoutes(t, h)
    ensures items == GetRoutes(t, h)
  {
    router := new Router.Default();
    for k := 0 to |t|
      invariant router.routes == GetRoutes(t[..k], h)
    {
      router.Get(t[k], h);
      GetRoutesSnoc(t, k, h);
    }
    assert t[..|t|] == t;
    items := router.IntoIter();
  }

  /** The test's router, turned into a matcher, is the one whose matches the matcher test checks. */
  method TestMatcher(e: Engine, h: Handler) returns (m: Result<Matcher, RegexError>)
    ensures m == NewMatcher(e, FourRoutes(h, "foo", "bar"))
  {
    var router, _ := TestRouter(h, FourTemplates("foo", "bar"));
    m := router.IntoMatcher(e);
  }
}
