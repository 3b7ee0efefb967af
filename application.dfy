/** The application object of lib/proto.js: its settings table and the
    settings derived from it, the router it creates on first need and the
    calls it makes on that router, engine registration, mount paths, and
    view rendering with its cache. The router itself is seen only through
    the calls the application makes on it. */
module Application {
  import opened Js
  import Views
  import Query

  /** The verbs of the `methods` package: Node's `http.METHODS` in lower
      case (the list of Node 18). */
  const Methods: seq<string> := [
    "acl", "bind", "checkout", "connect", "copy", "delete", "get", "head",
    "link", "lock", "m-search", "merge", "mkactivity", "mkcalendar", "mkcol",
    "move", "notify", "options", "patch", "post", "propfind", "proppatch",
    "purge", "put", "rebind", "report", "search", "source", "subscribe",
    "trace", "unbind", "unlink", "unlock", "unsubscribe"]

  /** `compileETag`, `compileQueryParser` and `compileTrust`. */
  datatype Compilers = Compilers(etag: Value -> Value, queryParser: Value -> Value, trust: Value -> Value)

  // ---------------------------------------------------------------------
  // Settings

  /** The setting a write to `setting` also recomputes, if any. */
  function DerivedKey(setting: string): (d: Option<string>)
    ensures d.Some? <==> setting in {"etag", "query parser", "trust proxy"}
    ensures d.Some? ==> d.value == setting + " fn"
  {
    if setting == "etag" then Some("etag fn")
    else if setting == "query parser" then Some("query parser fn")
    else if setting == "trust proxy" then Some("trust proxy fn")
    else None
  }

  /** The compiled value stored under the derived key of `setting`. */
  function Compiled(c: Compilers, setting: string, val: Value): Value {
    if setting == "etag" then c.etag(val)
    else if setting == "query parser" then c.queryParser(val)
    else c.trust(val)
  }

  /** The settings table after `set(setting, val)`. */
  function Assigned(settings: map<string, Value>, setting: string, val: Value, c: Compilers): map<string, Value> {
    var written := settings[setting := val];
    match DerivedKey(setting)
    case None => written
    case Some(d) => written[d := Compiled(c, setting, val)]
  }

  /** After a write the setting reads back as the value written, and its
      derived setting as the compiled value. */
  lemma AssignedReads(settings: map<string, Value>, setting: string, val: Value, c: Compilers)
    ensures Get(Assigned(settings, setting, val, c), setting) == val
    ensures DerivedKey(setting).Some? ==>
              Get(Assigned(settings, setting, val, c), DerivedKey(setting).value) == Compiled(c, setting, val)
  {
  }

  /** A write changes no setting but the one written and the one derived
      from it, and adds no other key. */
  lemma AssignedLeavesOthers(settings: map<string, Value>, setting: string, val: Value, c: Compilers, k: string)
    requires k != setting && (DerivedKey(setting).None? || k != DerivedKey(setting).value)
    ensures Get(Assigned(settings, setting, val, c), k) == Get(settings, k)
    ensures k in Assigned(settings, setting, val, c) <==> k in settings
  {
  }

  /** Writing the same value twice is writing it once. */
  lemma AssignedIdempotent(settings: map<string, Value>, setting: string, val: Value, c: Compilers)
    ensures Assigned(Assigned(settings, setting, val, c), setting, val, c) == Assigned(settings, setting, val, c)
  {
  }

  /** `process.env.NODE_ENV || 'development'`; an unset variable reads as "". */
  function Environment(nodeEnv: string): (env: string)
    ensures env != ""
    ensures nodeEnv != "" ==> env == nodeEnv
  {
    if nodeEnv == "" then "development" else nodeEnv
  }

  /** The settings `defaultConfiguration` writes first, up to and
      including `trust proxy`. */
  function ServerDefaults(env: string, c: Compilers): map<string, Value> {
    map[
      "x-powered-by" := Bool(true),
      "etag" := Str("weak"), "etag fn" := c.etag(Str("weak")),
      "env" := Str(env),
      "query parser" := Str("extended"), "query parser fn" := c.queryParser(Str("extended")),
      "subdomain offset" := Num(2),
      "trust proxy" := Bool(false), "trust proxy fn" := c.trust(Bool(false))]
  }

  /** The settings after `defaultConfiguration`: the view settings follow,
      with `view cache` enabled only in production. `views` is the absolute
      form of "views" that `path.resolve` yields. */
  function DefaultSettings(env: string, views: string, c: Compilers): (s: map<string, Value>)
    ensures Truthy(Get(s, "view cache")) <==> env == "production"
    ensures Get(s, "env") == Str(env) && Get(s, "trust proxy") == Bool(false)
  {
    var base := ServerDefaults(env, c)["view" := ViewClass]["views" := Str(views)]["jsonp callback name" := Str("callback")];
    if env == "production" then base["view cache" := Bool(true)] else base
  }

  /** The first writes, one `set` after another, give the server defaults. */
  lemma ServerDefaultWrites(env: string, c: Compilers)
    ensures var s1 := Assigned(map[], "x-powered-by", Bool(true), c);
      var s2 := Assigned(s1, "etag", Str("weak"), c);
      var s3 := Assigned(s2, "env", Str(env), c);
      var s4 := Assigned(s3, "query parser", Str("extended"), c);
      var s5 := Assigned(s4, "subdomain offset", Num(2), c);
      Assigned(s5, "trust proxy", Bool(false), c) == ServerDefaults(env, c)
  {
    var s1 := Assigned(map[], "x-powered-by", Bool(true), c);
    assert s1 == map["x-powered-by" := Bool(true)];
    var s2 := Assigned(s1, "etag", Str("weak"), c);
    assert s2 == s1["etag" := Str("weak")]["etag fn" := c.etag(Str("weak"))];
    var s3 := Assigned(s2, "env", Str(env), c);
    assert s3 == s2["env" := Str(env)];
    var s4 := Assigned(s3, "query parser", Str("extended"), c);
    assert s4 == s3["query parser" := Str("extended")]["query parser fn" := c.queryParser(Str("extended"))];
    var s5 := Assigned(s4, "subdomain offset", Num(2), c);
    assert s5 == s4["subdomain offset" := Num(2)];
    assert Assigned(s5, "trust proxy", Bool(false), c) == s5["trust proxy" := Bool(false)]["trust proxy fn" := c.trust(Bool(false))];
  }

  /** The view writes that follow give the default settings. */
  lemma ViewDefaultWrites(env: string, views: string, c: Compilers)
    ensures var s7 := Assigned(ServerDefaults(env, c), "view", ViewClass, c);
      var s8 := Assigned(s7, "views", Str(views), c);
      var s9 := Assigned(s8, "jsonp callback name", Str("callback"), c);
      DefaultSettings(env, views, c) == if env == "production" then Assigned(s9, "view cache", Bool(true), c) else s9
  {
    var s7 := Assigned(ServerDefaults(env, c), "view", ViewClass, c);
    assert s7 == ServerDefaults(env, c)["view" := ViewClass];
    var s8 := Assigned(s7, "views", Str(views), c);
    assert s8 == s7["views" := Str(views)];
    var s9 := Assigned(s8, "jsonp callback name", Str("callback"), c);
    assert s9 == s8["jsonp callback name" := Str("callback")];
    assert Assigned(s9, "view cache", Bool(true), c) == s9["view cache" := Bool(true)];
  }

  // ---------------------------------------------------------------------
  // What the application hands to its router

  /** A middleware function the application registers on its router. */
  datatype Middleware =
    | UserFunction(fn: Value)        // a function given to `use`, passed on as it is
    | QueryParsing(h: Query.Handler) // the handler `query(app.get('query parser fn'))` returns
    | Initialization(app: App)       // `middleware.init(app)`
    | MountedApp(app: App)           // the `mounted_app` wrapper of a sub-application

  /** One call the application makes on its router. */
  datatype RouterCall =
    | UseCall(path: Option<Value>, m: Middleware)  // `router.use([path,] fn)`
    | RouteCall(route: Route)                      // `router.route(path)`, returning `route`
    | ParamCall(name: Value, fn: Value)            // `router.param(name, fn)`

  /** A route: its path and the verb registrations made on it. */
  class Route {
    const path: Value
    var stack: seq<(string, seq<Value>)>

    constructor (path: Value)
      ensures this.path == path && stack == []
    {
      this.path := path;
      stack := [];
    }

    /** `route[verb](...handlers)`. */
    method Register(verb: string, handlers: seq<Value>)
      modifies this`stack
      ensures stack == old(stack) + [(verb, handlers)]
    {
      stack := stack + [(verb, handlers)];
    }
  }

  /** The router, as the log of the calls made on it. */
  class Router {
    const app: App
    const caseSensitive: bool
    const strict: bool
    var calls: seq<RouterCall>

    constructor (app: App, caseSensitive: bool, strict: bool)
      ensures this.app == app && this.caseSensitive == caseSensitive && this.strict == strict
      ensures calls == []
    {
      this.app := app;
      this.caseSensitive := caseSensitive;
      this.strict := strict;
      calls := [];
    }

    method Use(path: Option<Value>, m: Middleware)
      modifies this`calls
      ensures calls == old(calls) + [UseCall(path, m)]
    {
      calls := calls + [UseCall(path, m)];
    }

    method NewRoute(path: Value) returns (route: Route)
      modifies this`calls
      ensures fresh(route) && route.path == path && route.stack == []
      ensures calls == old(calls) + [RouteCall(route)]
    {
      route := new Route(path);
      calls := calls + [RouteCall(route)];
    }

    method Param(name: Value, fn: Value)
      modifies this`calls
      ensures calls == old(calls) + [ParamCall(name, fn)]
    {
      calls := calls + [ParamCall(name, fn)];
    }
  }

  /** The continuation `handle` finishes with: the caller's callback when it
      is truthy, otherwise a final handler for the request. */
  datatype Done = Callback(fn: Value) | FinalHandler(req: Value, res: Value, env: Value)

  /** What `handle` does: call `done` itself, or pass the request on. */
  datatype Handling =
    | DoneCalled(done: Done, args: seq<Value>)
    | Dispatched(router: Router, req: Value, res: Value, done: Done)

  // ---------------------------------------------------------------------
  // `use`: path argument and middleware list

  function FirstArgument(args: seq<Value>): Value {
    if args == [] then Undefined else args[0]
  }

  /** Whether `use` takes its first argument as the path: the first value
      reached by descending into element 0 of non-empty arrays is not a
      function. A missing first argument counts as a path. */
  predicate HasPathArgument(args: seq<Value>) {
    !IsFunction(FirstLeaf(FirstArgument(args)))
  }

  /** The path `use` mounts at: its first argument, or "/". */
  function MountPath(args: seq<Value>): Value {
    if HasPathArgument(args) then FirstArgument(args) else Str("/")
  }

  /** The middleware `use` registers: the remaining arguments, flattened. */
  function MiddlewareArgs(args: seq<Value>): (fns: seq<Value>)
    ensures HasPathArgument(args) && args != [] ==> fns == Flatten(args[1..])
    ensures !HasPathArgument(args) ==> fns == Flatten(args)
    ensures forall v <- fns :: !v.Arr?
    ensures |fns| <= |Flatten(args)| && fns == Flatten(args)[|Flatten(args)| - |fns|..]
  {
    if !HasPathArgument(args) then Flatten(args)
    else if args == [] then []
    else
      assert args == [args[0]] + args[1..];
      FlattenAppend([args[0]], args[1..]);
      Flatten(args[1..])
  }

  /** With no path argument there is always middleware, and the first one
      is the function found in the first argument. */
  lemma {:induction false} NoPathArgumentMeansMiddleware(args: seq<Value>)
    requires !HasPathArgument(args)
    ensures MiddlewareArgs(args) != [] && MiddlewareArgs(args)[0] == FirstLeaf(args[0])
  {
    assert args != [];
    assert args == [args[0]] + args[1..];
    FlattenAppend([args[0]], args[1..]);
    assert Flatten([args[0]]) == FlattenValue(args[0]) + Flatten([]);
    FunctionLeafIsFirstFlattened(args[0]);
  }

  /** A function value that is an application: it has `handle` and `set`. */
  predicate IsApp(v: Value) {
    v.AppFn? && v.app is App
  }

  /** The applications among a list of middleware. */
  function Apps(fns: seq<Value>): set<App> {
    set v | v in fns && IsApp(v) :: v.app as App
  }

  /** The applications `use` mounts. */
  function MountTargets(args: seq<Value>): set<App> {
    Apps(MiddlewareArgs(args))
  }

  /** The router call `use` makes for one middleware: an application is
      wrapped, anything else passed on. */
  function Registration(path: Value, fn: Value): RouterCall {
    if IsApp(fn) then UseCall(Some(path), MountedApp(fn.app as App))
    else UseCall(Some(path), UserFunction(fn))
  }

  function Registrations(path: Value, fns: seq<Value>): (calls: seq<RouterCall>)
    ensures |calls| == |fns|
    ensures forall i :: 0 <= i < |fns| ==> calls[i] == Registration(path, fns[i])
  {
    seq(|fns|, i requires 0 <= i < |fns| => Registration(path, fns[i]))
  }

  /** `use` registers one router call per middleware, all at the same path,
      in the order the middleware were given. */
  lemma RegistrationsAppend(path: Value, a: seq<Value>, b: seq<Value>)
    ensures Registrations(path, a + b) == Registrations(path, a) + Registrations(path, b)
  {
  }

  lemma ParamCallsAppend(a: seq<Value>, b: seq<Value>, fn: Value)
    ensures ParamCalls(a + b, fn) == ParamCalls(a, fn) + ParamCalls(b, fn)
  {
  }

  /** One more name of an array registers that name's leaves after the
      earlier ones. */
  lemma ParamCallsSnoc(names: seq<Value>, i: nat, fn: Value)
    requires i < |names|
    ensures ParamCalls(Flatten(names[..i + 1]), fn)
            == ParamCalls(Flatten(names[..i]), fn) + ParamCalls(FlattenValue(names[i]), fn)
  {
    FlattenSnoc(names, i);
    ParamCallsAppend(Flatten(names[..i]), FlattenValue(names[i]), fn);
  }

  /** The router calls `param` makes for a list of names. */
  function ParamCalls(names: seq<Value>, fn: Value): (calls: seq<RouterCall>)
    ensures |calls| == |names|
    ensures forall i :: 0 <= i < |names| ==> calls[i] == ParamCall(names[i], fn)
  {
    seq(|names|, i requires 0 <= i < |names| => ParamCall(names[i], fn))
  }

  /** `param` on an array registers each leaf name, and never an array. */
  lemma ParamCallsNameLeaves(name: Value, fn: Value)
    ensures forall c <- ParamCalls(FlattenValue(name), fn) :: c.ParamCall? && !c.name.Arr?
  {
  }

  // ---------------------------------------------------------------------
  // Mount paths

  /** A parent chain: each application's parent is the next one and the
      last one has none. */
  predicate IsParentChain(chain: seq<App>)
    reads chain
  {
    |chain| > 0 && chain[|chain| - 1].parent == null
    && forall i :: 0 <= i < |chain| - 1 ==> chain[i].parent == chain[i + 1]
  }

  /** `app.path()` for the first application of a parent chain. */
  function PathAlong(chain: seq<App>): string
    requires IsParentChain(chain)
    reads chain
    decreases |chain|
  {
    if |chain| == 1 then "" else PathAlong(chain[1..]) + JsString(chain[0].mountpath)
  }

  /** The chain goes on exactly when the application has a parent. */
  lemma ChainGoesOnIffParent(chain: seq<App>)
    requires IsParentChain(chain)
    ensures |chain| > 1 <==> chain[0].parent != null
  {
    if |chain| > 1 {
      assert chain[0].parent == chain[1];
    }
  }

  /** An application has at most one parent chain, so its path does not
      depend on which chain is given. */
  lemma {:induction false} ParentChainUnique(c1: seq<App>, c2: seq<App>)
    requires IsParentChain(c1) && IsParentChain(c2) && c1[0] == c2[0]
    ensures c1 == c2
    decreases |c1|
  {
    ChainGoesOnIffParent(c1);
    ChainGoesOnIffParent(c2);
    if c1[0].parent != null {
      assert c1[1..][0] == c1[0].parent == c2[1..][0];
      TailIsParentChain(c1);
      TailIsParentChain(c2);
      ParentChainUnique(c1[1..], c2[1..]);
      assert c1 == [c1[0]] + c1[1..] && c2 == [c2[0]] + c2[1..];
    }
  }

  /** A top-level application's path is empty. */
  lemma RootPathEmpty(a: App)
    requires a.parent == null
    ensures IsParentChain([a]) && PathAlong([a]) == ""
  {
  }

  /** An application mounted under a parent has the parent's path followed
      by its own mount path. */
  lemma MountedPath(a: App, chain: seq<App>)
    requires IsParentChain(chain) && a.parent == chain[0]
    ensures IsParentChain([a] + chain)
    ensures PathAlong([a] + chain) == PathAlong(chain) + JsString(a.mountpath)
  {
    assert ([a] + chain)[1..] == chain;
  }

  /** The rest of a parent chain is the parent's chain. */
  lemma TailIsParentChain(chain: seq<App>)
    requires IsParentChain(chain) && |chain| > 1
    ensures IsParentChain(chain[1..])
  {
    forall i | 0 <= i < |chain[1..]| - 1
      ensures chain[1..][i].parent == chain[1..][i + 1]
    {
      assert chain[1..][i] == chain[i + 1];
    }
  }

  /** An application's path starts with the path of each of its ancestors. */
  lemma {:induction false} AncestorPathIsPrefix(chain: seq<App>, j: nat)
    requires IsParentChain(chain) && j < |chain|
    ensures IsParentChain(chain[j..]) && PathAlong(chain[j..]) <= PathAlong(chain)
    decreases j
  {
    if j > 0 {
      TailIsParentChain(chain);
      AncestorPathIsPrefix(chain[1..], j - 1);
      assert chain[1..][j - 1..] == chain[j..];
    }
  }

  // ---------------------------------------------------------------------
  // Rendering

  /** `renderOptions`: the own properties of `app.locals`, then those of
      `opts._locals` when it is truthy, then those of `opts`; `cache` is
      `enabled('view cache')` when it is missing, undefined or null. */
  function RenderOptions(locals: map<string, Value>, opts: Value, viewCache: bool): (r: map<string, Value>)
    ensures "cache" in r
  {
    var merged := Merged(locals, opts);
    if IsNullish(Get(merged, "cache")) then merged["cache" := Bool(viewCache)] else merged
  }

  /** Later sources win: an own property of `opts` beats one of
      `opts._locals`, which beats one of `app.locals`; the result has no
      other keys, and its `cache` is never undefined or null. */
  lemma RenderOptionsPrecedence(locals: map<string, Value>, opts: Value, viewCache: bool)
    ensures var r := RenderOptions(locals, opts, viewCache);
      && r.Keys == locals.Keys + LocalsOf(opts).Keys + OwnProperties(opts).Keys + {"cache"}
      && (forall k <- OwnProperties(opts) :: k != "cache" ==> r[k] == OwnProperties(opts)[k])
      && (forall k <- LocalsOf(opts) :: k != "cache" && k !in OwnProperties(opts) ==> r[k] == LocalsOf(opts)[k])
      && (forall k <- locals :: k != "cache" && k !in OwnProperties(opts) && k !in LocalsOf(opts) ==> r[k] == locals[k])
      && !IsNullish(r["cache"])
  {
  }

  /** The `cache` option: the one given, by the same precedence, unless it
      is missing, undefined or null; then whether `view cache` is enabled. */
  lemma RenderOptionsCache(locals: map<string, Value>, opts: Value, viewCache: bool)
    ensures var given := Get(Merged(locals, opts), "cache");
      RenderOptions(locals, opts, viewCache)["cache"] == if IsNullish(given) then Bool(viewCache) else given
  {
  }

  /** The own properties of `opts._locals` when it is truthy. */
  function LocalsOf(opts: Value): map<string, Value> {
    if Truthy(Property(opts, "_locals")) then OwnProperties(Property(opts, "_locals")) else map[]
  }

  function Merged(locals: map<string, Value>, opts: Value): map<string, Value> {
    locals + LocalsOf(opts) + OwnProperties(opts)
  }

  /** The cache and the engines table as `render` sees them. */
  datatype RenderState = RenderState(cache: map<string, Views.View>, engines: map<string, Value>)

  /** How `render` ends: thrown, with a lookup error handed to `done`, or
      by handing the view, the render options and `done` to the view's
      engine (`view.render(options, done)`). */
  datatype RenderOutcome =
    | Threw(error: Error)
    | LookupFailed(done: Value, error: Error, view: Views.View)
    | Rendered(view: Views.View, options: map<string, Value>, done: Value)

  /** What the settings give `render`. */
  datatype RenderSettings = RenderSettings(viewCache: bool, defaultEngine: Value, root: Value)

  /** The view `render` settles on: found (in the cache or by
      construction), constructed without a path, or not constructed because
      the constructor threw. */
  datatype Lookup = Found(view: Views.View) | Missing(view: Views.View) | Failed(error: Error)

  /** The view part of `render`: a cached view is used when caching is on;
      otherwise a view is constructed, and a view with a path is cached when
      caching is on. */
  function ViewLookup(name: string, caching: bool, s: RenderSettings, st: RenderState, p: Views.Platform): (RenderState, Lookup) {
    if caching && name in st.cache then (st, Found(st.cache[name]))
    else
      var c := Views.Construct(name, s.defaultEngine, s.root, st.engines, p);
      match c.view
      case Err(e) => (RenderState(st.cache, c.engines), Failed(e))
      case Ok(v) =>
        if v.path.None? then (RenderState(st.cache, c.engines), Missing(v))
        else (RenderState(if caching then st.cache[name := v] else st.cache, c.engines), Found(v))
  }

  /** `app.render(name, options, callback)` as a function of the state it
      reads: a function as second argument is the callback; a view without
      a path is reported to `done`; a found view is handed to its engine. */
  function RenderSpec(name: string, options: Value, callback: Value, locals: map<string, Value>,
                      s: RenderSettings, st: RenderState, p: Views.Platform): (RenderState, RenderOutcome)
  {
    var done := if IsFunction(options) then options else callback;
    var opts := if IsFunction(options) then Obj(map[]) else options;
    if IsNullish(opts) then (st, Threw(NoProperties("_locals", opts)))
    else
      var ro := RenderOptions(locals, opts, s.viewCache);
      var lookup := ViewLookup(name, Truthy(ro["cache"]), s, st, p);
      (lookup.0, Settled(name, ro, done, lookup.1))
  }

  /** How `render` ends once the view is settled. */
  function Settled(name: string, ro: map<string, Value>, done: Value, found: Lookup): RenderOutcome {
    match found
    case Failed(e) => Threw(e)
    case Missing(v) => LookupFailed(done, ViewNotFound(name, v.root), v)
    case Found(v) => Rendered(v, ro, done)
  }

  /** Whether the render options of this call turn caching on. */
  predicate Caching(locals: map<string, Value>, options: Value, s: RenderSettings) {
    var opts := if IsFunction(options) then Obj(map[]) else options;
    !IsNullish(opts) && Truthy(RenderOptions(locals, opts, s.viewCache)["cache"])
  }

  /** A cache hit uses the cached view and constructs nothing: neither the
      cache nor the engines table changes. */
  lemma CacheHitSkipsConstruction(name: string, options: Value, callback: Value, locals: map<string, Value>,
                                  s: RenderSettings, st: RenderState, p: Views.Platform)
    requires Caching(locals, options, s) && name in st.cache
    ensures RenderSpec(name, options, callback, locals, s, st, p).0 == st
    ensures RenderSpec(name, options, callback, locals, s, st, p).1.Rendered?
    ensures RenderSpec(name, options, callback, locals, s, st, p).1.view == st.cache[name]
  {
  }

  /** The cache changes only when caching is on, and then only at `name`,
      to a view that was found. */
  lemma CacheChangesOnlyAtName(name: string, options: Value, callback: Value, locals: map<string, Value>,
                               s: RenderSettings, st: RenderState, p: Views.Platform)
    ensures var st' := RenderSpec(name, options, callback, locals, s, st, p).0;
      && (!Caching(locals, options, s) ==> st'.cache == st.cache)
      && (forall n <- st.cache :: n != name ==> n in st'.cache && st'.cache[n] == st.cache[n])
      && st'.cache.Keys <= st.cache.Keys + {name}
      && (name in st'.cache && (name !in st.cache || st'.cache[name] != st.cache[name]) ==> st'.cache[name].path.Some?)
  {
    var opts := if IsFunction(options) then Obj(map[]) else options;
    if !IsNullish(opts) {
      var caching := Truthy(RenderOptions(locals, opts, s.viewCache)["cache"]);
      LookupCacheChangesOnlyAtName(name, caching, s, st, p);
    }
  }

  /** The view lookup changes the cache only when caching is on, and then
      only at `name`, to a view with a path. */
  lemma LookupCacheChangesOnlyAtName(name: string, caching: bool, s: RenderSettings, st: RenderState, p: Views.Platform)
    ensures var st' := ViewLookup(name, caching, s, st, p).0;
      && (!caching ==> st'.cache == st.cache)
      && (st'.cache == st.cache || (caching && name in st'.cache && st'.cache[name].path.Some?
                                    && st'.cache == st.cache[name := st'.cache[name]]))
  {
  }

  /** A view that is not found is reported to `done`, with the view, and
      is never cached. */
  lemma NotFoundNeverCached(name: string, options: Value, callback: Value, locals: map<string, Value>,
                            s: RenderSettings, st: RenderState, p: Views.Platform)
    requires RenderSpec(name, options, callback, locals, s, st, p).1.LookupFailed?
    ensures var (st', out) := RenderSpec(name, options, callback, locals, s, st, p);
      && st'.cache == st.cache
      && out.done == (if IsFunction(options) then options else callback)
      && out.error == ViewNotFound(name, s.root)
      && out.view.path.None?
  {
  }

  /** With caching on, a render that found its view makes the next render
      of the same name a cache hit on that view. */
  lemma {:induction false} SecondRenderHitsCache(name: string, options: Value, callback: Value,
                                                 options2: Value, callback2: Value, locals: map<string, Value>,
                                                 s: RenderSettings, st: RenderState, p: Views.Platform, p2: Views.Platform)
    requires Caching(locals, options, s) && Caching(locals, options2, s)
    requires RenderSpec(name, options, callback, locals, s, st, p).1.Rendered?
    ensures var (st', out) := RenderSpec(name, options, callback, locals, s, st, p);
      var (st'', out2) := RenderSpec(name, options2, callback2, locals, s, st', p2);
      && st'' == st' && out2.Rendered? && out2.view == out.view
  {
    var (st', out) := RenderSpec(name, options, callback, locals, s, st, p);
    assert name in st'.cache && st'.cache[name] == out.view;
    CacheHitSkipsConstruction(name, options2, callback2, locals, s, st', p2);
  }

  /** Every cached view has a path: rendering keeps that invariant. */
  lemma CachedViewsResolved(name: string, options: Value, callback: Value, locals: map<string, Value>,
                            s: RenderSettings, st: RenderState, p: Views.Platform)
    requires forall n <- st.cache :: st.cache[n].path.Some?
    ensures var st' := RenderSpec(name, options, callback, locals, s, st, p).0;
      forall n <- st'.cache :: st'.cache[n].path.Some?
  {
  }

  // ---------------------------------------------------------------------
  // The application

  class App {
    const compilers: Compilers
    const engines: Views.EngineTable
    var settings: map<string, Value>
    /** The back-compat flag `onmount` consults: true until `trust proxy`
        is set after construction. */
    var trustProxyDefault: bool
    var cache: map<string, Views.View>
    var locals: map<string, Value>
    var mountpath: Value
    var parent: App?
    var router: Router?

    /** `init` and `defaultConfiguration`. `nodeEnv` is NODE_ENV ("" when
        unset) and `viewsRoot` the absolute path of "views". */
    constructor (nodeEnv: string, viewsRoot: string, compilers: Compilers)
      ensures this.compilers == compilers
      ensures settings == DefaultSettings(Environment(nodeEnv), viewsRoot, compilers)
      ensures trustProxyDefault
      ensures cache == map[] && locals == map[] && fresh(engines) && engines.table == map[]
      ensures mountpath == Str("/") && parent == null && router == null
    {
      this.compilers := compilers;
      engines := new Views.EngineTable();
      settings := map[];
      trustProxyDefault := false;
      cache := map[];
      locals := map[];
      mountpath := Str("/");
      parent := null;
      router := null;
      new;
      var env := Environment(nodeEnv);
      ServerConfiguration(env);
      trustProxyDefault := true;
      ViewConfiguration(env, viewsRoot);
    }

    /** The first part of `defaultConfiguration`, on an empty table. */
    method ServerConfiguration(env: string)
      requires settings == map[]
      modifies this`settings, this`trustProxyDefault
      ensures settings == ServerDefaults(env, compilers)
      ensures !trustProxyDefault
    {
      Enable("x-powered-by");
      Set("etag", Str("weak"));
      Set("env", Str(env));
      Set("query parser", Str("extended"));
      Set("subdomain offset", Num(2));
      Set("trust proxy", Bool(false));
      ServerDefaultWrites(env, compilers);
    }

    /** The view settings `defaultConfiguration` writes after the
        back-compat flag, and `view cache` in production. */
    method ViewConfiguration(env: string, views: string)
      requires settings == ServerDefaults(env, compilers)
      modifies this`settings, this`trustProxyDefault
      ensures settings == DefaultSettings(env, views, compilers)
      ensures trustProxyDefault == old(trustProxyDefault)
    {
      Set("view", ViewClass);
      Set("views", Str(views));
      Set("jsonp callback name", Str("callback"));
      if env == "production" {
        Enable("view cache");
      }
      ViewDefaultWrites(env, views, compilers);
    }

    /** `set(setting)` with one argument, and `get(setting)`. */
    function Read(setting: string): (r: Value)
      reads this`settings
      ensures setting in settings ==> r == settings[setting]
      ensures setting !in settings ==> r == Undefined
    {
      Get(settings, setting)
    }

    /** `set(setting, val)`: the write, the write of the derived setting
        (by a nested `set`), and the back-compat flag for `trust proxy`. */
    method Set(setting: string, val: Value)
      modifies this`settings, this`trustProxyDefault
      ensures settings == Assigned(old(settings), setting, val, compilers)
      ensures Read(setting) == val
      ensures trustProxyDefault == (if setting == "trust proxy" then false else old(trustProxyDefault))
      decreases if DerivedKey(setting).Some? then 1 else 0
    {
      ghost var before := settings;
      settings := settings[setting := val];
      if setting == "etag" {
        Set("etag fn", compilers.etag(val));
      } else if setting == "query parser" {
        Set("query parser fn", compilers.queryParser(val));
      } else if setting == "trust proxy" {
        Set("trust proxy fn", compilers.trust(val));
        trustProxyDefault := false;
      }
      AssignedReads(before, setting, val, compilers);
    }

    predicate Enabled(setting: string)
      reads this`settings
      ensures Enabled(setting) ==> setting in settings
    {
      Truthy(Read(setting))
    }

    function Disabled(setting: string): (r: bool)
      reads this`settings
      ensures r <==> !Enabled(setting)
    {
      !Truthy(Read(setting))
    }

    method Enable(setting: string)
      modifies this`settings, this`trustProxyDefault
      ensures settings == Assigned(old(settings), setting, Bool(true), compilers)
      ensures Enabled(setting) && !Disabled(setting)
      ensures trustProxyDefault == (if setting == "trust proxy" then false else old(trustProxyDefault))
    {
      Set(setting, Bool(true));
    }

    method Disable(setting: string)
      modifies this`settings, this`trustProxyDefault
      ensures settings == Assigned(old(settings), setting, Bool(false), compilers)
      ensures !Enabled(setting) && Disabled(setting)
      ensures trustProxyDefault == (if setting == "trust proxy" then false else old(trustProxyDefault))
    {
      Set(setting, Bool(false));
    }

    /** The two layers a new router starts with: query parsing, then the
        request initialisation. */
    function InitialCalls(): seq<RouterCall>
      reads this`settings
    {
      [UseCall(None, QueryParsing(Query.Create(Read("query parser fn")))), UseCall(None, Initialization(this))]
    }

    /** The router's calls so far, counting the two a `lazyrouter` would
        register first when there is no router yet. */
    function CallsBefore(): seq<RouterCall>
      reads this`router, this`settings, router
    {
      if router == null then InitialCalls() else router.calls
    }

    /** A router made for this application, with the routing options the
        settings give. */
    predicate RouterFor()
      reads this`router, this`settings
    {
      && router != null && router.app == this
      && router.caseSensitive == Enabled("case sensitive routing")
      && router.strict == Enabled("strict routing")
    }

    /** `lazyrouter`: create the router once, with its two initial layers. */
    method LazyRouter()
      modifies this`router
      ensures router != null && (old(router) != null ==> router == old(router))
      ensures old(router) == null ==> fresh(router) && RouterFor()
      ensures router.calls == old(CallsBefore())
    {
      if router == null {
        var r := new Router(this, Enabled("case sensitive routing"), Enabled("strict routing"));
        r.Use(None, QueryParsing(Query.Create(Read("query parser fn"))));
        r.Use(None, Initialization(this));
        router := r;
      }
    }

    /** `handle(req, res, callback)`: without a router `done` is called once
        with no argument; nothing is created. */
    method Handle(req: Value, res: Value, callback: Value) returns (h: Handling)
      ensures h.DoneCalled? <==> router == null
      ensures h.DoneCalled? ==> h.args == []
      ensures h.Dispatched? ==> h.router == router && h.req == req && h.res == res
      ensures Truthy(callback) ==> h.done == Callback(callback)
      ensures !Truthy(callback) ==> h.done == FinalHandler(req, res, Read("env"))
    {
      var done := if Truthy(callback) then Callback(callback) else FinalHandler(req, res, Read("env"));
      if router == null {
        h := DoneCalled(done, []);
      } else {
        h := Dispatched(router, req, res, done);
      }
    }

    /** The disambiguation loop of `use`: descend into element 0 of
        non-empty arrays and test whether a function was reached. */
    static method PathArgument(first: Value) returns (isPath: bool)
      ensures isPath == HasPathArgument([first])
    {
      isPath := false;
      if !IsFunction(first) {
        var arg := first;
        while arg.Arr? && arg.elems != []
          invariant FirstLeaf(arg) == FirstLeaf(first)
          decreases arg
        {
          arg := arg.elems[0];
        }
        isPath := !IsFunction(arg);
      }
    }

    /** The argument handling of `use`: the mount path and the flattened
        middleware. */
    static method UseArguments(args: seq<Value>) returns (path: Value, fns: seq<Value>)
      ensures path == MountPath(args) && fns == MiddlewareArgs(args)
    {
      var offset := 0;
      path := Str("/");
      var isPath := true;
      if args != [] {
        isPath := PathArgument(args[0]);
      }
      if isPath {
        offset := 1;
        path := FirstArgument(args);
      }
      fns := if offset <= |args| then Flatten(args[offset..]) else [];
    }

    /** `use([path,] ...fns)`. Without middleware it throws before the router
        is created; otherwise each middleware is registered at the path, and
        each application among them is mounted there with this one as its
        parent. */
    method Use(args: seq<Value>) returns (r: Outcome<Error>)
      modifies this`router, router, MountTargets(args)`mountpath, MountTargets(args)`parent
      ensures r.Pass? <==> MiddlewareArgs(args) != []
      ensures r.Fail? ==> r.error == MiddlewareRequired && router == old(router)
      ensures r.Fail? && old(router) != null ==> router.calls == old(router.calls)
      ensures r.Pass? ==> router != null && (old(router) != null ==> router == old(router))
      ensures r.Pass? && old(router) == null ==> fresh(router) && RouterFor()
      ensures r.Pass? ==> router.calls == old(CallsBefore()) + Registrations(MountPath(args), MiddlewareArgs(args))
      ensures r.Pass? ==> forall v <- MiddlewareArgs(args) :: IsApp(v) ==>
                (v.app as App).mountpath == MountPath(args) && (v.app as App).parent == this
    {
      var path, fns := UseArguments(args);
      if fns == [] {
        return Fail(MiddlewareRequired);
      }
      LazyRouter();
      Register(path, fns);
      r := Pass;
    }

    /** The loop of `use` over its middleware: each is registered at `path`;
        an application is first given its mount path and this parent. */
    method Register(path: Value, fns: seq<Value>)
      requires router != null
      modifies router`calls, Apps(fns)`mountpath, Apps(fns)`parent
      ensures router.calls == old(router.calls) + Registrations(path, fns)
      ensures forall v <- fns :: IsApp(v) ==> (v.app as App).mountpath == path && (v.app as App).parent == this
    {
      var rt: Router := router;
      ghost var base := rt.calls;
      for i := 0 to |fns|
        invariant router == rt
        invariant rt.calls == base + Registrations(path, fns[..i])
        invariant forall v <- fns[..i] :: IsApp(v) ==> (v.app as App).mountpath == path && (v.app as App).parent == this
      {
        var fn := fns[i];
        if IsApp(fn) {
          var sub := fn.app as App;
          sub.mountpath := path;
          sub.parent := this;
          rt.Use(Some(path), MountedApp(sub));
        } else {
          rt.Use(Some(path), UserFunction(fn));
        }
        assert fns[..i + 1] == fns[..i] + [fn];
        assert rt.calls == base + Registrations(path, fns[..i + 1]) by {
          RegistrationsAppend(path, fns[..i], [fn]);
        }
      }
      assert fns[..|fns|] == fns;
    }

    /** `route(path)`. */
    method Route(path: Value) returns (route: Route)
      modifies this`router, router
      ensures router != null && (old(router) != null ==> router == old(router))
      ensures old(router) == null ==> fresh(router) && RouterFor()
      ensures fresh(route) && route.path == path && route.stack == []
      ensures router.calls == old(CallsBefore()) + [RouteCall(route)]
    {
      LazyRouter();
      route := router.NewRoute(path);
    }

    /** `engine(ext, fn)`: store `fn` under the extension with a leading
        dot added when missing; a non-function throws, and so does reading
        `ext[0]` of undefined or null. */
    method Engine(ext: Value, fn: Value) returns (r: Outcome<Error>)
      modifies engines
      ensures !IsFunction(fn) ==> r == Fail(CallbackRequired) && engines.table == old(engines.table)
      ensures IsFunction(fn) && IsNullish(ext) ==> r == Fail(NoProperties("0", ext)) && engines.table == old(engines.table)
      ensures IsFunction(fn) && !IsNullish(ext) ==>
                r == Pass && engines.table == old(engines.table)[Views.DotExtension(ext) := fn]
    {
      if !IsFunction(fn) {
        return Fail(CallbackRequired);
      }
      if IsNullish(ext) {
        return Fail(NoProperties("0", ext));
      }
      var extension := Views.DotExtension(ext);
      engines.table := engines.table[extension := fn];
      r := Pass;
    }

    /** `param(name, fn)`: an array of names registers each of them, nested
        arrays included, in order; an empty array registers nothing but
        still creates the router. */
    method Param(name: Value, fn: Value)
      modifies this`router, router
      ensures router != null && (old(router) != null ==> router == old(router))
      ensures old(router) == null ==> fresh(router) && RouterFor()
      ensures router.calls == old(CallsBefore()) + ParamCalls(FlattenValue(name), fn)
    {
      LazyRouter();
      ParamOnRouter(name, fn);
    }

    /** The body of `param` once the router exists: an array of names is
        registered element by element (the nested `param` calls find the
        router in place), any other name is handed to the router. */
    method ParamOnRouter(name: Value, fn: Value)
      requires router != null
      modifies router`calls
      ensures router.calls == old(router.calls) + ParamCalls(FlattenValue(name), fn)
      decreases name
    {
      if name.Arr? {
        var names := name.elems;
        ghost var base := router.calls;
        for i := 0 to |names|
          invariant router.calls == base + ParamCalls(Flatten(names[..i]), fn)
        {
          ParamOnRouter(names[i], fn);
          assert router.calls == base + ParamCalls(Flatten(names[..i + 1]), fn) by {
            ParamCallsSnoc(names, i, fn);
          }
        }
        assert names[..|names|] == names;
      } else {
        router.Param(name, fn);
      }
    }

    /** `all(path, ...handlers)`: one route, with the handlers registered for
        every verb, in the order of `Methods`. */
    method All(path: Value, handlers: seq<Value>) returns (route: Route)
      modifies this`router, router
      ensures router != null && (old(router) != null ==> router == old(router))
      ensures old(router) == null ==> fresh(router) && RouterFor()
      ensures fresh(route) && route.path == path
      ensures router.calls == old(CallsBefore()) + [RouteCall(route)]
      ensures |route.stack| == |Methods|
      ensures forall i :: 0 <= i < |Methods| ==> route.stack[i] == (Methods[i], handlers)
    {
      LazyRouter();
      route := router.NewRoute(path);
      ghost var rt := router;
      ghost var calls := router.calls;
      for i := 0 to |Methods|
        invariant router == rt && router.calls == calls
        invariant |route.stack| == i
        invariant forall j :: 0 <= j < i ==> route.stack[j] == (Methods[j], handlers)
      {
        route.Register(Methods[i], handlers);
      }
    }

    /** `app[verb](path, ...handlers)`. A lone argument to `get` reads the
        setting of that name and changes nothing; any other call registers
        the handlers for the verb on a new route at the path. */
    method Verb(verb: string, args: seq<Value>) returns (setting: Option<Value>, route: Route?)
      requires verb in Methods
      modifies this`router, router
      ensures verb == "get" && |args| == 1 ==>
                setting == Some(Read(JsString(args[0]))) && route == null && router == old(router)
      ensures verb == "get" && |args| == 1 && old(router) != null ==> router.calls == old(router.calls)
      ensures !(verb == "get" && |args| == 1) ==>
                && setting.None? && route != null && fresh(route)
                && router != null && (old(router) != null ==> router == old(router))
                && (old(router) == null ==> fresh(router) && RouterFor())
                && route.path == FirstArgument(args)
                && route.stack == [(verb, if args == [] then [] else args[1..])]
                && router.calls == old(CallsBefore()) + [RouteCall(route)]
    {
      if verb == "get" && |args| == 1 {
        return Some(Read(JsString(args[0]))), null;
      }
      LazyRouter();
      var r := router.NewRoute(FirstArgument(args));
      r.Register(verb, if args == [] then [] else args[1..]);
      setting, route := None, r;
    }

    /** `app.locals` as `mixin` reads it: `locals.settings` is the settings
        object unless it was overwritten. */
    function Locals(): map<string, Value>
      reads this`locals, this`settings
    {
      if "settings" in locals then locals else locals["settings" := Obj(settings)]
    }

    /** The settings `render` consults. */
    function RenderSettingsNow(): RenderSettings
      reads this`settings
    {
      RenderSettings(Enabled("view cache"), Read("view engine"), Read("views"))
    }

    /** The middle of `render`: the primed cache, the construction of the
        view and the priming of the cache. */
    method FindView(name: string, caching: bool, p: Views.Platform) returns (found: Lookup)
      modifies this`cache, engines
      ensures (RenderState(cache, engines.table), found)
              == ViewLookup(name, caching, RenderSettingsNow(), old(RenderState(cache, engines.table)), p)
    {
      if caching && name in cache {
        return Found(cache[name]);
      }
      var made := Views.NewView(name, Read("view engine"), Read("views"), engines, p);
      if made.Err? {
        return Failed(made.error);
      }
      if made.value.path.None? {
        return Missing(made.value);
      }
      if caching {
        cache := cache[name := made.value];
      }
      found := Found(made.value);
    }

    /** `render(name, options, callback)` with the built-in view class. */
    method Render(name: string, options: Value, callback: Value, p: Views.Platform) returns (out: RenderOutcome)
      requires Read("view") == ViewClass
      modifies this`cache, engines
      ensures (RenderState(cache, engines.table), out)
              == RenderSpec(name, options, callback, old(Locals()), old(RenderSettingsNow()),
                            old(RenderState(cache, engines.table)), p)
    {
      var done := callback;
      var opts := options;
      if IsFunction(options) {
        done := options;
        opts := Obj(map[]);
      }
      if IsNullish(opts) {
        return Threw(NoProperties("_locals", opts));
      }
      var renderOptions := RenderOptions(Locals(), opts, Enabled("view cache"));
      var found := FindView(name, Truthy(renderOptions["cache"]), p);
      out := Settled(name, renderOptions, done, found);
    }
  }

  /** A registered engine is the one a view with that extension uses,
      whether the extension comes from the view's name or from the default
      engine. */
  lemma RegisteredEngineUsed(table: map<string, Value>, ext: Value, fn: Value, name: string,
                             defaultEngine: Value, root: Value, p: Views.Platform)
    requires IsFunction(fn) && !IsNullish(ext)
    requires Views.Derive(name, defaultEngine, p).Ok?
    requires Views.Derive(name, defaultEngine, p).value.ext == Views.DotExtension(ext)
    requires Views.Construct(name, defaultEngine, root, table[Views.DotExtension(ext) := fn], p).view.Ok?
    ensures Views.Construct(name, defaultEngine, root, table[Views.DotExtension(ext) := fn], p).view.value.engine == fn
  {
  }
}
