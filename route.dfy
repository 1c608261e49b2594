/**
 * The route tree and its compiler (valar/src/routing/route.rs).
 *
 * A `Builder` is either a leaf (`Data`: a path template, the methods it
 * answers, a handler, its own parameter constraints and middleware) or a
 * group of builders with a `Config` of its own. Compiling walks the tree
 * with the configuration inherited so far: a group merges the inherited
 * configuration with its own for each child, and a leaf compiles its
 * template to a regex and emits one route per method, each carrying the
 * handler wrapped in the inherited middleware followed by its own.
 */
module Routing {
  import opened Wrappers
  import opened HttpTypes
  import opened HttpResponse
  import opened HttpRequest
  import opened Middleware
  import opened RoutePattern

  /** What a group hands down: middleware and parameter constraints. */
  datatype Config = Config(middlewares: seq<Mw>, parameters: map<string, string>)

  const DefaultConfig: Config := Config([], map[])

  /** `Config::from_middlewares`: the middleware and no constraints. */
  function FromMiddlewares(ms: seq<Mw>): (c: Config)
    ensures c.middlewares == ms && c.parameters == map[]
  {
    Config(ms, map[])
  }

  /**
   * `Config::from_iter`, as a value: the middleware lists concatenated in
   * order, the constraint maps extended in order (a later one wins).
   */
  function Merged(configs: seq<Config>): Config
    decreases |configs|
  {
    if |configs| == 0 then DefaultConfig
    else
      var init := Merged(configs[..|configs| - 1]);
      var last := configs[|configs| - 1];
      Config(init.middlewares + last.middlewares, init.parameters + last.parameters)
  }

  /** `Config::from_iter`: one pass, extending the parameters and the middleware. */
  method MergeConfigs(configs: seq<Config>) returns (c: Config)
    ensures c == Merged(configs)
  {
    var parameters: map<string, string> := map[];
    var middlewares := new Middlewares();
    for i := 0 to |configs|
      invariant Config(middlewares.items, parameters) == Merged(configs[..i])
    {
      parameters := parameters + configs[i].parameters;
      middlewares.Extend(configs[i].middlewares);
      assert configs[..i + 1][..i] == configs[..i];
    }
    assert configs[..|configs|] == configs;
    c := Config(middlewares.items, parameters);
  }

  /** The middleware lists of the configs, in order. */
  function MiddlewareLists(configs: seq<Config>): (r: seq<seq<Mw>>)
    ensures |r| == |configs|
  {
    seq(|configs|, i requires 0 <= i < |configs| => configs[i].middlewares)
  }

  lemma {:induction false} ConcatSnoc(lists: seq<seq<Mw>>, last: seq<Mw>)
    ensures Concat(lists + [last]) == Concat(lists) + last
    decreases |lists|
  {
    if |lists| == 0 {
      assert [last][1..] == [];
    } else {
      assert (lists + [last])[1..] == lists[1..] + [last];
      ConcatSnoc(lists[1..], last);
    }
  }

  /** Merging concatenates the middleware lists in iteration order. */
  lemma {:induction false} MergedMiddlewares(configs: seq<Config>)
    ensures Merged(configs).middlewares == Concat(MiddlewareLists(configs))
    decreases |configs|
  {
    if |configs| > 0 {
      var init := configs[..|configs| - 1];
      MergedMiddlewares(init);
      assert MiddlewareLists(configs) == MiddlewareLists(init) + [configs[|configs| - 1].middlewares];
      ConcatSnoc(MiddlewareLists(init), configs[|configs| - 1].middlewares);
    }
  }

  /** Config `i` is the last of `configs` to constrain `name`. */
  predicate LastWith(configs: seq<Config>, i: int, name: string) {
    0 <= i < |configs| && name in configs[i].parameters
    && forall j :: i < j < |configs| ==> name !in configs[j].parameters
  }

  /**
   * A constraint is present after merging iff some config has it, and its
   * value is that of the last config that has it.
   */
  lemma {:induction false} MergedParameters(configs: seq<Config>, name: string)
    ensures name in Merged(configs).parameters <==> exists i :: 0 <= i < |configs| && name in configs[i].parameters
    ensures forall i :: LastWith(configs, i, name) ==> Merged(configs).parameters[name] == configs[i].parameters[name]
    decreases |configs|
  {
    if |configs| > 0 {
      var init := configs[..|configs| - 1];
      MergedParameters(init, name);
      forall i | 0 <= i < |init| && name in init[i].parameters
        ensures name in configs[i].parameters
      {
        assert init[i] == configs[i];
      }
      forall i | 0 <= i < |configs| - 1 && name in configs[i].parameters
        ensures name in init[i].parameters
      {
        assert init[i] == configs[i];
      }
    }
  }

  /** What a group passes to a child: the inherited config, then its own. */
  lemma MergeTwo(inherited: Config, own: Config)
    ensures Merged([inherited, own]) == Config(inherited.middlewares + own.middlewares, inherited.parameters + own.parameters)
    ensures forall k :: k in own.parameters ==> Merged([inherited, own]).parameters[k] == own.parameters[k]
  {
    assert [inherited, own][..1] == [inherited];
    assert [inherited][..0] == [];
    assert Merged([inherited]) == Config([] + inherited.middlewares, map[] + inherited.parameters);
    assert [] + inherited.middlewares == inherited.middlewares;
    assert map[] + inherited.parameters == inherited.parameters;
  }

  /** A leaf of the route tree. */
  datatype Data = Data(
    path: string,
    methods: seq<Method>,
    handler: Handler,
    parameters: map<string, string>,
    middlewares: seq<Mw>)

  datatype Builder =
    | Leaf(data: Data)
    | Group(config: Config, routes: seq<Builder>)
  {
    /** `middleware`: pushed onto the leaf's, or the group's, own list. */
    function WithMiddleware(m: Mw): (b: Builder)
      ensures b.Leaf? == this.Leaf?
      ensures b.Leaf? ==> b.data == data.(middlewares := data.middlewares + [m])
      ensures b.Group? ==> b.routes == routes && b.config == config.(middlewares := config.middlewares + [m])
    {
      match this
      case Leaf(d) => Leaf(d.(middlewares := d.middlewares + [m]))
      case Group(c, rs) => Group(c.(middlewares := c.middlewares + [m]), rs)
    }

    /** `where_parameter`: a constraint inserted into the leaf's, or the group's, own map. */
    function WhereParameter(name: string, value: string): (b: Builder)
      ensures b.Leaf? == this.Leaf?
      ensures b.Leaf? ==> b.data == data.(parameters := data.parameters[name := value])
      ensures b.Group? ==> b.routes == routes && b.config == config.(parameters := config.parameters[name := value])
    {
      match this
      case Leaf(d) => Leaf(d.(parameters := d.parameters[name := value]))
      case Group(c, rs) => Group(c.(parameters := c.parameters[name := value]), rs)
    }
  }

  /** The methods `any` binds, in order. */
  const AnyMethods: seq<Method> := [OPTIONS, GET, POST, PUT, DELETE, HEAD, TRACE, CONNECT, PATCH]

  /** `Builder::get`: a leaf answering GET only. */
  function GetRoute(path: string, handler: Handler): (b: Builder)
    ensures b.Leaf? && b.data.path == path && b.data.methods == [GET] && b.data.handler == handler
    ensures b.data.parameters == map[] && b.data.middlewares == []
  {
    Leaf(Data(path, [GET], handler, map[], []))
  }

  /** `Builder::any`: a leaf answering the nine methods. */
  function AnyRoute(path: string, handler: Handler): (b: Builder)
    ensures b.Leaf? && b.data.path == path && b.data.methods == AnyMethods && b.data.handler == handler
    ensures b.data.parameters == map[] && b.data.middlewares == []
  {
    Leaf(Data(path, AnyMethods, handler, map[], []))
  }

  /** `Builder::group`: the routes under an empty config. */
  function GroupRoute(routes: seq<Builder>): (b: Builder)
    ensures b.Group? && b.routes == routes && b.config == DefaultConfig
  {
    Group(DefaultConfig, routes)
  }

  function NotFoundMessage(request: Request): string {
    "No route found for " + MethodName(request.httpMethod) + " " + request.uri.ToString()
  }

  /** `not_found_handler`: a 404 naming the method and the URI, whatever the request. */
  function NotFoundHandler(): (h: Handler)
    ensures forall request ::
      (h(request).trace == [] && h(request).result.Ok?
       && h(request).result.value.status == NOT_FOUND && h(request).result.value.body == NotFoundMessage(request))
  {
    request => Outcome([], Ok(NotFoundBuilder().Body(NotFoundMessage(request)).Build()))
  }

  /** `Builder::fallback`: `any(".*", not_found_handler)`. */
  function Fallback(): (b: Builder)
    ensures b.Leaf? && b.data.path == ".*" && b.data.methods == AnyMethods
  {
    AnyRoute(".*", NotFoundHandler())
  }

  /** The fallback answers every request with 404 and a message naming its method and URI. */
  lemma FallbackAnswers(request: Request)
    ensures Fallback().data.handler(request).result.Ok?
    ensures Fallback().data.handler(request).result.value.status == NOT_FOUND
    ensures Fallback().data.handler(request).result.value.body == NotFoundMessage(request)
  {
  }

  /** A compiled route. */
  datatype Route = Route(regex: Regex, path: string, httpMethod: Method, handler: Handler)

  /**
   * `Route::new(path, method, handler)`, which the router calls but this
   * file does not define: the route gets the regex of its template with no
   * constraints, the one a leaf with no `where_parameter` compiles to.
   */
  function NewRoute(path: string, httpMethod: Method, handler: Handler): (r: Route)
    ensures r.path == path && r.httpMethod == httpMethod && r.handler == handler
  {
    Route(TemplateRegex(path, map[]), path, httpMethod, handler)
  }

  /** The handler of a leaf, wrapped in the inherited middleware and then its own. */
  function LeafHandler(d: Data, config: Config): Handler {
    Wrap(Concat([config.middlewares, d.middlewares]), d.handler)
  }

  /** One route per method of the leaf, in method order. */
  function LeafRoutes(d: Data, regex: Regex, handler: Handler): (r: seq<Route>)
    ensures |r| == |d.methods|
  {
    seq(|d.methods|, i requires 0 <= i < |d.methods| => Route(regex, d.path, d.methods[i], handler))
  }

  /** `Data::compile`, as a value. */
  function CompiledData(d: Data, e: Engine, config: Config): Result<seq<Route>, RegexError> {
    match NewRegex(e, d.path, d.parameters)
    case Err(x) => Err(x)
    case Ok(regex) => Ok(LeafRoutes(d, regex, LeafHandler(d, config)))
  }

  /** `Builder::compile`, as a value. */
  function Compiled(b: Builder, e: Engine, previous: Config): Result<seq<Route>, RegexError>
    decreases b
  {
    match b
    case Leaf(d) => CompiledData(d, e, previous)
    case Group(own, children) => CompiledChildren(children, own, e, previous)
  }

  /** `Group::compile`, as a value: the children in order, the first error aborting. */
  function CompiledChildren(children: seq<Builder>, own: Config, e: Engine, inherited: Config): Result<seq<Route>, RegexError>
    decreases children
  {
    if |children| == 0 then Ok([])
    else
      match CompiledChildren(children[..|children| - 1], own, e, inherited)
      case Err(x) => Err(x)
      case Ok(prefix) =>
        match Compiled(children[|children| - 1], e, Merged([inherited, own]))
        case Err(x) => Err(x)
        case Ok(rs) => Ok(prefix + rs)
  }

  /** `Data::compile`: the regex, the wrapped handler, then the routes. */
  method CompileData(d: Data, e: Engine, config: Config) returns (r: Result<seq<Route>, RegexError>)
    ensures r == CompiledData(d, e, config)
  {
    var regex := NewRegex(e, d.path, d.parameters);
    if regex.Err? {
      return Err(regex.error);
    }
    var middlewares := Concat([config.middlewares, d.middlewares]);
    var handler := Wrap(middlewares, d.handler);
    var routes := PushRoutes(d, regex.value, handler);
    return Ok(routes);
  }

  /** The loop of `Data::compile`: one route pushed per method. */
  method PushRoutes(d: Data, regex: Regex, handler: Handler) returns (routes: seq<Route>)
    ensures routes == LeafRoutes(d, regex, handler)
  {
    routes := [];
    for i := 0 to |d.methods|
      invariant |routes| == i
      invariant forall j :: 0 <= j < i ==> routes[j] == Route(regex, d.path, d.methods[j], handler)
    {
      routes := routes + [Route(regex, d.path, d.methods[i], handler)];
    }
  }

  /** `Builder::compile`. */
  method Compile(b: Builder, e: Engine, previous: Config) returns (r: Result<seq<Route>, RegexError>)
    ensures r == Compiled(b, e, previous)
    decreases b
  {
    match b
    case Leaf(d) =>
      r := CompileData(d, e, previous);
    case Group(own, children) =>
      r := CompileGroup(children, own, e, previous);
  }

  /** `Group::compile`: each child under the merged config; `?` returns the first error. */
  method CompileGroup(children: seq<Builder>, own: Config, e: Engine, inherited: Config) returns (r: Result<seq<Route>, RegexError>)
    ensures r == CompiledChildren(children, own, e, inherited)
    decreases children
  {
    var routes: seq<Route> := [];
    for i := 0 to |children|
      invariant CompiledChildren(children[..i], own, e, inherited) == Ok(routes)
    {
      var config := MergeConfigs([inherited, own]);
      var compiled := Compile(children[i], e, config);
      assert children[..i + 1][..i] == children[..i];
      if compiled.Err? {
        CompiledChildrenAbort(children, i + 1, own, e, inherited);
        return Err(compiled.error);
      }
      routes := routes + compiled.value;
    }
    assert children[..|children|] == children;
    return Ok(routes);
  }

  /** Once a prefix of the children fails, so does every longer prefix, with the same error. */
  lemma {:induction false} CompiledChildrenAbort(children: seq<Builder>, k: nat, own: Config, e: Engine, inherited: Config)
    requires k <= |children|
    requires CompiledChildren(children[..k], own, e, inherited).Err?
    ensures CompiledChildren(children, own, e, inherited) == CompiledChildren(children[..k], own, e, inherited)
    decreases |children| - k
  {
    if k == |children| {
      assert children[..k] == children;
    } else {
      assert children[..k + 1][..k] == children[..k];
      CompiledChildrenAbort(children, k + 1, own, e, inherited);
    }
  }

  /**
   * A leaf emits exactly one route per method, in method order, all with
   * the leaf's path, the regex of its own template and constraints, and the
   * handler wrapped in the inherited middleware followed by its own.
   */
  lemma LeafCompilation(d: Data, e: Engine, config: Config)
    requires CompiledData(d, e, config).Ok?
    ensures |CompiledData(d, e, config).value| == |d.methods|
    ensures forall i :: 0 <= i < |d.methods| ==>
      var route := CompiledData(d, e, config).value[i];
      route.httpMethod == d.methods[i] && route.path == d.path
      && route.regex == TemplateRegex(d.path, d.parameters)
      && route.handler == Wrap(config.middlewares + d.middlewares, d.handler)
  {
    ConcatTwo(config.middlewares, d.middlewares);
  }

  /**
   * The regex depends only on the leaf's own constraints: the inherited
   * config changes the handlers, never which templates compile or to what.
   */
  lemma RegexIgnoresInherited(d: Data, e: Engine, c1: Config, c2: Config)
    ensures CompiledData(d, e, c1).Ok? == CompiledData(d, e, c2).Ok?
    ensures CompiledData(d, e, c1).Ok? ==>
      forall i :: 0 <= i < |d.methods| ==>
        CompiledData(d, e, c1).value[i].regex == CompiledData(d, e, c2).value[i].regex
  {
  }

  /** A group emits its children's routes in child order, each compiled under the merged config. */
  lemma GroupCompilation(children: seq<Builder>, own: Config, e: Engine, inherited: Config, c: Builder)
    ensures CompiledChildren(children + [c], own, e, inherited) ==
      match CompiledChildren(children, own, e, inherited)
      case Err(x) => Err(x)
      case Ok(prefix) =>
        match Compiled(c, e, Config(inherited.middlewares + own.middlewares, inherited.parameters + own.parameters))
        case Err(x) => Err(x)
        case Ok(rs) => Ok(prefix + rs)
  {
    MergeTwo(inherited, own);
    assert (children + [c])[..|children|] == children;
  }

  /** A group of no routes compiles to no routes; a group of one route to that route's routes under the merged config. */
  lemma SingletonGroup(c: Builder, own: Config, e: Engine, inherited: Config)
    ensures Compiled(Group(own, []), e, inherited) == Ok([])
    ensures Compiled(Group(own, [c]), e, inherited) == Compiled(c, e, Merged([inherited, own]))
  {
    assert [c][..0] == [];
    match Compiled(c, e, Merged([inherited, own]))
    case Err(_) =>
    case Ok(rs) => assert [] + rs == rs;
  }

  /** `get` binds only GET: it compiles to exactly one route. */
  lemma GetCompilesToOne(path: string, h: Handler, e: Engine, config: Config)
    requires Compiled(GetRoute(path, h), e, config).Ok?
    ensures |Compiled(GetRoute(path, h), e, config).value| == 1
    ensures Compiled(GetRoute(path, h), e, config).value[0].httpMethod == GET
    ensures Compiled(GetRoute(path, h), e, config).value[0].path == path
  {
  }

  /** `any` compiles to nine routes, one per method of `AnyMethods`, in that order. */
  lemma AnyCompilesToNine(path: string, h: Handler, e: Engine, config: Config)
    requires Compiled(AnyRoute(path, h), e, config).Ok?
    ensures |Compiled(AnyRoute(path, h), e, config).value| == 9
    ensures forall i :: 0 <= i < 9 ==> Compiled(AnyRoute(path, h), e, config).value[i].httpMethod == AnyMethods[i]
  {
  }

  /** `Route::parameters` on a URI: the route's template against the URI's path. */
  function RouteParameters(route: Route, uri: Uri): map<string, string> {
    Parameters(route.path, uri.path)
  }
}
