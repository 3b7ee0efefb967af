# xprezzo application core, modelled in Dafny

xprezzo is an Express-style web framework for Node.js. This project models
three of its files:

- the application prototype (`lib/proto.js`): the settings table, the router
  created on first need, `use`, `route`, `param`, `all`, the per-verb methods,
  `engine`, `path` and `render` with its view cache;
- the view class (`lib/view.js`): how a view's extension follows from its
  name and the default engine, how the shared engines table is filled, and
  how the view roots and candidate files are searched;
- the query-string middleware (`lib/middleware/query.js`).

The model has four modules:

- Js (`js.dfy`): JavaScript values, with truthiness, `typeof … ===
  'function'` and `String(v)`. It also holds `flatten` from array-flatten, the
  errors the core throws, and the main text of their messages.
- Query (`query.dfy`): the query middleware factory and its request handler.
- Views (`view.dfy`): the view constructor as a function (`Construct`), and
  as a method (`NewView`) that updates the shared `EngineTable`. It also holds
  the lookup loop (`Lookup`), proved against the recursive `FirstResolved`.
- Application (`application.dfy`): the class `App`, with its fields
  `settings`, `cache`, `locals`, `mountpath`, `parent` and `router`. The
  router and its routes are classes that record the calls the application
  makes on them. `render` is specified by the function `RenderSpec` over the
  cache and the engines table.

Foreign code is passed in as functions:

- `compileETag`, `compileQueryParser` and `compileTrust` are `Compilers`.
- `path.*`, `fs.statSync`, `require` and the serve-static send engine are
  `Views.Platform`. The files on which `statSync` succeeds form a set.
- `parseUrl(req).query`, `qs.parse` and calls of a user-supplied parser are
  `Query.Runtime`.
- `NODE_ENV` and `path.resolve('views')` are constructor arguments.

## Model

| member | source | states |
|---|---|---|
| `Js.Flatten` | lib/proto.js:167 | flattening leaves no array in the result |
| `Js.FlattenAppend` | lib/proto.js:167 | flattening distributes over concatenation, so middleware keep their order |
| `Js.FlattenLeaves` | lib/proto.js:167 | a list without arrays comes out of `flatten` unchanged |
| `Js.FirstLeaf` | lib/proto.js:155-159 | the descent into element 0 stops at a value that is not a non-empty array |
| `Js.FunctionLeafIsFirstFlattened` | lib/proto.js:155-167 | when the descent reaches a function, that function is also the first value `flatten` yields |
| `Js.Directories` | lib/proto.js:334-336 | a single root is named as one directory, and more than one root as "directories" |
| `Js.TwoDirectoriesNamed` | lib/proto.js:334-337 | with two roots, the message names the first, then "or", then the second |
| `Js.Message` | lib/view.js:58-93 | the message of each error the core throws: no default engine, a module that is missing or exports no engine, and the others raised in `lib/proto.js` |
| `Query.Create` | lib/middleware/query.js:23-35 | a function argument is the parser and leaves the options undefined; otherwise the own properties are copied, `allowPrototypes` defaults to true when undefined, and nothing else changes |
| `Query.Parse` | lib/middleware/query.js:25-30 | the handler parses with `qs.parse` and the copied options, or with the caller's function and undefined options |
| `Query.QueryAfter` | lib/middleware/query.js:38-41 | the request's query after the handler: kept when truthy, otherwise the parse of the URL's query string; its properties are in `Handle` and `HandleTwiceIsHandleOnce` |
| `Query.ExplicitAllowPrototypesKept` | lib/middleware/query.js:24-35 | options with a defined `allowPrototypes` go through the copy unchanged |
| `Query.Handle` | lib/middleware/query.js:37-44 | a truthy `req.query` is kept; a falsy one is replaced by the parse of the URL's query; when the parse returns, `next` is called once with no argument |
| `Query.HandleTwiceIsHandleOnce` | lib/middleware/query.js:38-41 | once the handler has left a truthy query, a second run changes nothing |
| `Views.DotExtension` | lib/view.js:66-68 | a dot is put in front of a string unless it already starts with one; the result always starts with a dot, and is never empty for any value |
| `Views.DotExtensionIdempotent` | lib/view.js:66-68 | an extension that is already dotted is left alone |
| `Views.Derive` | lib/view.js:54-71 | the constructor throws exactly when the name has no extension and there is no default engine; when naming succeeds the extension is never empty, the file name starts with the name, and it is the name itself exactly when the name has its own extension; otherwise the default engine's dotted extension is appended |
| `Views.LoadEngine` | lib/view.js:74-93 | `.send` loads from serve-static and any other module through `require`; the load fails exactly when the module is missing or exports no function, with "Cannot find module" in the first case and "does not provide a view engine" in the second |
| `Views.EngineModule` | lib/view.js:76-80 | `.send` names xprezzo-send; any other extension names the module spelled by its text after the first character |
| `Views.InstallEngine` | lib/view.js:73-96 | a truthy entry is kept; otherwise the loaded engine is stored under the extension, and a failed load changes nothing |
| `Views.EngineTable.constructor` | lib/proto.js:53 | the engines table starts empty |
| `Views.EngineTable.Install` | lib/view.js:73-96 | the table's new state and the result are those `InstallEngine` gives |
| `Views.Resolve` | lib/view.js:155-173 | `<dir>/<file>` is returned when it is a file; otherwise `<dir>/<basename>/index<ext>` when that is a file; otherwise nothing. A result is always an existing file |
| `Views.Lookup` | lib/view.js:113-132 | the loop over the roots gives the result of `FirstResolved`, which searches from the front and stops at the first root that resolves |
| `Views.SingleRootLookup` | lib/view.js:115-129 | `[].concat(root)`: a single root that is not an array is the only root searched, and an array's roots are searched in their own order |
| `Views.MissesSkipped` | lib/view.js:119-129 | roots that miss do not affect the result |
| `Views.EarliestRootDecides` | lib/view.js:119-131 | the earliest root that does not miss decides the result |
| `Views.NothingFoundIffAllMiss` | lib/view.js:119-131 | the lookup finds nothing exactly when every root misses |
| `Views.LaterRootsIgnored` | lib/view.js:119 | once a root has decided the lookup, roots after it are never consulted |
| `Views.FoundFileExists` | lib/view.js:155-173 | the path the lookup finds is an existing file |
| `Views.Construct` | lib/view.js:50-104 | a constructed view keeps its name, root and default engine, and its engine is the table's entry for its extension |
| `Views.ConstructKeepsEngines` | lib/view.js:73-96 | construction never replaces a truthy engine entry, adds at most the entry for the view's extension, and leaves the table alone when naming fails |
| `Views.ConstructedView` | lib/view.js:50-104 | the extension comes from `Derive`; the path is the lookup of the derived file name; the engine is the existing truthy entry or a freshly loaded one |
| `Views.NewView` | lib/view.js:50-104 | the method's result and the new engines table are those `Construct` gives |
| `Application.DerivedKey` | lib/proto.js:240-255 | exactly `etag`, `query parser` and `trust proxy` trigger a second write, to the setting named with " fn" appended |
| `Application.Assigned` | lib/proto.js:236-255 | the table after a write: the setting, then its derived setting compiled from the value; its properties are the three lemmas that follow |
| `Application.AssignedReads` | lib/proto.js:236-248 | after a write, the setting reads back as the value written, and its derived setting as the compiled value |
| `Application.AssignedLeavesOthers` | lib/proto.js:236-255 | a write changes no other setting and adds no other key |
| `Application.AssignedIdempotent` | lib/proto.js:236-255 | writing the same value twice is the same as writing it once |
| `Application.Environment` | lib/proto.js:59 | the environment is `NODE_ENV` when it is set and non-empty, and is never empty |
| `Application.DefaultSettings` | lib/proto.js:57-100 | `view cache` is on exactly in production; `env` and `trust proxy` read as configured |
| `Application.ServerDefaultWrites` | lib/proto.js:61-66 | the six writes of the configuration chain, one after another, give the server defaults |
| `Application.ViewDefaultWrites` | lib/proto.js:95-100 | the view writes that follow them give the default settings |
| `Application.App.constructor` | lib/proto.js:51-100 | a new application has the default settings, the back-compat flag set, empty cache, locals and engines, mount path "/", no parent and no router |
| `Application.App.ServerConfiguration` | lib/proto.js:61-66 | the configuration chain, run on an empty table, leaves the server defaults and clears the back-compat flag |
| `Application.App.ViewConfiguration` | lib/proto.js:95-100 | the view writes complete the default settings and leave the back-compat flag alone |
| `Application.App.Set` | lib/proto.js:228-257 | the new table is the written one (`Assigned`); the setting reads back as written; a write of `trust proxy` clears the back-compat flag |
| `Application.App.Read` | lib/proto.js:229-232 | `set(setting)` and `get(setting)` read the table, and a missing setting reads as undefined |
| `Application.App.Enabled` | lib/proto.js:263-265 | `enabled` is the truthiness of the setting, so an enabled setting is present in the table |
| `Application.App.Disabled` | lib/proto.js:266-268 | a setting is disabled exactly when it is not enabled |
| `Application.App.Enable` | lib/proto.js:269-272 | `enable` writes true, after which the setting is enabled |
| `Application.App.Disable` | lib/proto.js:273-275 | `disable` writes false, after which the setting is disabled |
| `Application.App.LazyRouter` | lib/proto.js:109-125 | a router is created only when there is none; a new one belongs to this application, takes its routing options from the settings, and starts with the query parser, then the init middleware |
| `Application.App.Handle` | lib/proto.js:126-147 | without a router, `done` is called once with no argument; with one, the request goes to it; `done` is the callback when it is truthy, otherwise a final handler for the request |
| `Application.MiddlewareArgs` | lib/proto.js:150-167 | the middleware are a suffix of the flattened arguments, with no array among them: all of them without a path argument, all but the flattened first one with a path argument |
| `Application.NoPathArgumentMeansMiddleware` | lib/proto.js:155-171 | when the first argument leads to a function, there is middleware, and it starts with that function |
| `Application.App.PathArgument` | lib/proto.js:155-166 | the loop decides if the first argument is the path, as `FirstLeaf` does |
| `Application.App.UseArguments` | lib/proto.js:150-167 | gives the mount path (the first argument, or "/") and the flattened middleware |
| `Application.RegistrationsAppend` | lib/proto.js:175-197 | registering two lists one after the other is registering their concatenation |
| `Application.App.Use` | lib/proto.js:148-200 | it throws when there is no middleware, before the router exists, and registers nothing on an existing router; otherwise the router gets one call per middleware after its earlier calls, and each application among them gets this mount path and this parent |
| `Application.App.Register` | lib/proto.js:175-197 | the loop appends the registrations in order, and mounts every application it meets |
| `Application.App.Route` | lib/proto.js:201-204 | creates the router if needed, then one new empty route at the path, recorded on the router |
| `Application.App.Engine` | lib/proto.js:205-216 | a non-function throws "callback function required"; undefined or null `ext` throws on `ext[0]`; otherwise the engine is stored under the dotted extension and nothing else changes |
| `Application.RegisteredEngineUsed` | lib/proto.js:205-216 | a view whose extension is the registered one uses the registered engine, whether the extension comes from the view's name or from the default engine, for any extension value `engine` accepts |
| `Application.ParamCallsAppend` | lib/proto.js:219-223 | params for two lists of names, one after the other, equal params for their concatenation |
| `Application.ParamCallsNameLeaves` | lib/proto.js:219-225 | the router never gets an array as a param name |
| `Application.App.Param` | lib/proto.js:217-227 | creates the router if needed, then registers every leaf of a nested name array, in order; an empty array registers nothing |
| `Application.App.ParamOnRouter` | lib/proto.js:219-225 | the recursion over an array of names appends the params of its flattened leaves |
| `Application.App.All` | lib/proto.js:276-287 | one new route, with the same handlers registered for every verb in the order of the methods list |
| `Application.App.Verb` | lib/proto.js:370-383 | `get` with one argument reads that setting, creates no route and adds no router call; otherwise one new route at the path, with the handlers registered for that verb |
| `Application.ParentChainUnique` | lib/proto.js:258-262 | an application has one parent chain, so its path is well defined |
| `Application.PathAlong` | lib/proto.js:258-262 | `path()` along a parent chain: empty at the top, otherwise the parent's path followed by the mount path as a string; its properties are the lemmas around it |
| `Application.RootPathEmpty` | lib/proto.js:259-261 | an application without a parent has the empty path |
| `Application.MountedPath` | lib/proto.js:259-260 | a mounted application's path is its parent's path followed by its own mount path |
| `Application.AncestorPathIsPrefix` | lib/proto.js:258-262 | an application's path starts with the path of each of its ancestors |
| `Application.RenderOptions` | lib/proto.js:302-316 | the render options always carry `cache` |
| `Application.RenderOptionsPrecedence` | lib/proto.js:302-311 | an own property of the options beats one of `options._locals`, which beats one of `app.locals`; there are no other keys; `cache` is never undefined or null |
| `Application.RenderOptionsCache` | lib/proto.js:313-316 | `cache` is the given one, unless it is missing, undefined or null; then it is `enabled('view cache')` |
| `Application.CacheHitSkipsConstruction` | lib/proto.js:318-324 | with caching on and the name cached, the cached view is rendered and nothing is constructed |
| `Application.LookupCacheChangesOnlyAtName` | lib/proto.js:318-346 | the view step changes the cache only when caching is on, only at the name, and only to a view with a path |
| `Application.CacheChangesOnlyAtName` | lib/proto.js:318-346 | a render changes no cache entry except the one for its name, and changes nothing when caching is off |
| `Application.NotFoundNeverCached` | lib/proto.js:333-340 | a view without a path is handed to `done` with the not-found error, and is never cached |
| `Application.SecondRenderHitsCache` | lib/proto.js:318-346 | with caching on, a render that found its view makes the next render of that name a cache hit on the same view, with no state change |
| `Application.CachedViewsResolved` | lib/proto.js:333-345 | every cached view has a path, and a render keeps that invariant |
| `Application.App.FindView` | lib/proto.js:318-346 | the new cache and the new engines table, and the view found, are those `ViewLookup` gives |
| `Application.App.Render` | lib/proto.js:288-357 | the new cache and the new engines table, and how the render ends, are those `RenderSpec` gives for the locals and settings before the call |

## Left out

- The router (`lib/router`) is not part of this model.
  `Router` and `Route` only record the calls the application makes on them.
  `router.handle` is the `Dispatched` result of `Handle`.
- The `mount` event and its handler are left out. That covers the
  `trust proxy` deletion and the `setPrototypeOf` inheritance of request,
  response, engines and settings (lib/proto.js:74-87), the prototype
  restoration in `mounted_app` (lib/proto.js:186-193), and all `emit` calls.
  `trustProxyDefault` records the back-compat flag that the handler would
  read.
- Application.App.Set: the back-compat flag is stored as a setting under
  the key '@@symbol:trust_proxy_default', which is non-writable and not
  enumerable. It appears here as a separate field, not in `settings`.
  `get('@@symbol:trust_proxy_default')`, and a strict-mode write to that key
  throwing, are not modelled.
- `listen`, `finalhandler`'s `onerror` and the console output are left out:
  they are I/O.
- The deprecated `app.router` getter and `app.del` are left out.
- `init.js`, `xprezzo.js` and `index.js` are not part of this model. The
  init middleware appears only as the `Initialization` registration.
- Keys inherited from `Object.prototype` are not modelled. In the JS they
  would make settings, the view cache or the engines table see a
  `constructor` entry.
- `mixin` is taken to copy the own enumerable properties of a plain object.
  A string, array or function source copies nothing here.
- A plain object with `handle` and `set` properties mounts like an
  application in the JS. Only `App` objects do here.
- Application.App.Render requires the `view` setting to be the built-in
  view class. A custom view constructor is foreign code.
- `view.render` and the engine it calls are the `Rendered` outcome. What the
  engine does, and the `try`/`catch` around it, are foreign code.
- Exceptions thrown by engines, by `compileETag`, `compileQueryParser` and
  `compileTrust`, and by `parseUrl`, `qs.parse` or a custom query parser are
  not modelled; those are functions here. In the JS a throwing parser leaves
  `next` uncalled.
- Numbers are integers here (`Js.Num`). JS numbers are doubles: fractions,
  `NaN`, `-0` and the infinities are not modelled, and `NaN` and `-0`, which
  are falsy in the JS, do not exist for `Js.Truthy`.
- Js.Message gives the main text of each message only. Node's "Require
  stack" tail after "Cannot find module", and the ". Received …" tail of the
  invalid path argument error, are not modelled. A view extension of "."
  names the module "" and is reported as "Cannot find module"; the JS
  `require("")` throws a different `TypeError`.
- Views.DotExtension and `Application.App.Engine`: a default engine or
  extension that is not a string is turned to a string with `String(v)`. The
  JS `ext[0]` of an array or object is modelled only through `IndexZeroIsDot`.
  A function's source text is not modelled; it converts to the string
  "function".
- Application.Methods is Node 18's `http.METHODS` list. The `methods`
  package reads the running Node version's list.
- Application.App.Locals: `app.locals` starts with a `settings` key that
  aliases the settings object. Here that key is added, from the current
  settings, when `render` reads the locals.
- Application.PathAlong takes the parent chain as an argument and needs it
  to be finite. A cycle of parents makes the JS recurse without end.
- parseurl caches its result on the request; a function stands for it here.
- Js.Directories states only how the message starts for several roots.
  `Js.TwoDirectoriesNamed` spells out the two-root case in full.
