/** Views of lib/view.js: how a view's extension and file name follow from
    its name and the default engine, how the shared engines table is filled,
    and the order in which view roots and candidate files are searched. */
module Views {
  import opened Js

  /** Paths at which `fs.statSync` succeeds on a regular file. The empty
      path never names a file. */
  type FileSet = s: set<string> | "" !in s

  /** The filesystem, the `path` functions and `require`, all outside the
      core. `basename(p, "")` is the one-argument `basename(p)`. */
  datatype Platform = Platform(
    files: FileSet,
    extname: string -> string,
    resolve: (string, string) -> string,
    dirname: string -> string,
    basename: (string, string) -> string,
    join: seq<string> -> string,
    modules: map<string, Value>,  // the `__express` export of each module `require` can load
    sendEngine: Value)            // `send.__express` of xprezzo-serve-static

  /** A constructed view. Its fields are fixed at construction. */
  datatype View = View(
    defaultEngine: Value,
    ext: string,
    name: string,
    root: Value,
    engine: Value,
    path: Option<string>)

  /** The extension a bare engine name stands for: a `.` is put in front
      unless the value already starts with one. */
  function DotExtension(v: Value): (r: string)
    requires !IsNullish(v)
    ensures v.Str? && |v.s| > 0 && v.s[0] == '.' ==> r == v.s
    ensures v.Str? && !(|v.s| > 0 && v.s[0] == '.') ==> r == "." + v.s
    ensures v.Str? ==> |r| > 0 && r[0] == '.'
    ensures r != ""
  {
    if !IndexZeroIsDot(v) then "." + JsString(v)
    else if v.Arr? then
      assert JoinedElements(v.elems)[0] == ".";
      JoinStartsWithFirst(JoinedElements(v.elems), ",");
      JsString(v)
    else JsString(v)
  }

  /** A dotted extension is already normal. */
  lemma DotExtensionIdempotent(s: string)
    ensures DotExtension(Str(DotExtension(Str(s)))) == DotExtension(Str(s))
  {
  }

  /** The extension of a view and the file name looked up for it. */
  datatype Naming = Naming(ext: string, fileName: string)

  /** The constructor's first step: a name with an extension keeps it and is
      looked up as it is; a name without one takes the default engine's
      extension, and the looked-up file name gets that extension appended.
      Neither an extension nor a default engine is an error. */
  function Derive(name: string, defaultEngine: Value, p: Platform): (r: Result<Naming, Error>)
    ensures r.Err? <==> p.extname(name) == "" && !Truthy(defaultEngine)
    ensures r.Err? ==> r.error == NoDefaultEngine
    ensures r.Ok? && p.extname(name) != "" ==> r.value == Naming(p.extname(name), name)
    ensures r.Ok? && p.extname(name) == "" ==>
              r.value.ext == DotExtension(defaultEngine) && r.value.fileName == name + r.value.ext
    ensures r.Ok? ==> r.value.ext != ""
    ensures r.Ok? ==> (r.value.fileName == name <==> p.extname(name) != "")
    ensures r.Ok? ==> r.value.fileName[..|name|] == name
  {
    var ext := p.extname(name);
    if ext == "" && !Truthy(defaultEngine) then Err(NoDefaultEngine)
    else if ext != "" then Ok(Naming(ext, name))
    else Ok(Naming(DotExtension(defaultEngine), name + DotExtension(defaultEngine)))
  }

  /** The module an extension's engine is loaded from: `.send` names
      xprezzo-send, any other extension its text after the first character. */
  function EngineModule(ext: string): (mod: string)
    ensures ext != ".send" && ext != "" ==> [ext[0]] + mod == ext
    ensures ext == ".send" ==> mod == "xprezzo-send"
  {
    if ext == ".send" then "xprezzo-send" else if ext == "" then "" else ext[1..]
  }

  /** Loading the engine of a module: xprezzo-send comes from
      xprezzo-serve-static, any other module through `require`; what is
      loaded must be a function. */
  function LoadEngine(mod: string, p: Platform): (r: Result<Value, Error>)
    ensures r.Ok? ==> IsFunction(r.value)
    ensures r.Ok? && mod == "xprezzo-send" ==> r.value == p.sendEngine
    ensures r.Ok? && mod != "xprezzo-send" ==> mod in p.modules && r.value == p.modules[mod]
    ensures r.Err? <==> if mod == "xprezzo-send" then !IsFunction(p.sendEngine)
                        else mod !in p.modules || !IsFunction(p.modules[mod])
    ensures r.Err? ==> r.error == (if mod != "xprezzo-send" && mod !in p.modules then ModuleNotFound(mod)
                                   else NotAViewEngine(mod))
  {
    var found: Option<Value> :=
      if mod == "xprezzo-send" then Some(p.sendEngine)
      else if mod in p.modules then Some(p.modules[mod])
      else None;
    if found.None? then Err(ModuleNotFound(mod))
    else if !IsFunction(found.value) then Err(NotAViewEngine(mod))
    else Ok(found.value)
  }

  /** The engines table after a view with extension `ext` is constructed.
      A truthy entry is kept as it is; otherwise the loaded engine is stored
      under `ext`, and a failed load leaves the table alone. */
  function InstallEngine(table: map<string, Value>, ext: string, p: Platform): (r: Result<map<string, Value>, Error>)
    ensures Truthy(Get(table, ext)) ==> r == Ok(table)
    ensures r.Ok? ==> ext in r.value && Truthy(r.value[ext]) && r.value == table[ext := r.value[ext]]
    ensures !Truthy(Get(table, ext)) ==>
              (r.Ok? <==> LoadEngine(EngineModule(ext), p).Ok?)
              && (r.Ok? ==> r.value[ext] == LoadEngine(EngineModule(ext), p).value)
              && (r.Err? ==> r.error == LoadEngine(EngineModule(ext), p).error)
  {
    if Truthy(Get(table, ext)) then Ok(table)
    else match LoadEngine(EngineModule(ext), p)
      case Ok(fn) => Ok(table[ext := fn])
      case Err(e) => Err(e)
  }

  /** The engines table handed to every view construction; the application
      owns one and views fill it. */
  class EngineTable {
    var table: map<string, Value>

    constructor ()
      ensures table == map[]
    {
      table := map[];
    }

    /** Fill the entry for `ext` unless it is already truthy. */
    method Install(ext: string, p: Platform) returns (r: Outcome<Error>)
      modifies this
      ensures InstallEngine(old(table), ext, p).Ok? ==> r == Pass && table == InstallEngine(old(table), ext, p).value
      ensures InstallEngine(old(table), ext, p).Err? ==>
                r == Fail(InstallEngine(old(table), ext, p).error) && table == old(table)
    {
      if !Truthy(Get(table, ext)) {
        var loaded := LoadEngine(EngineModule(ext), p);
        if loaded.Err? {
          return Fail(loaded.error);
        }
        table := table[ext := loaded.value];
      }
      return Pass;
    }
  }

  /** `View.prototype.resolve`: the file itself if it exists, else the
      `index` file of the directory of that name, else nothing. */
  function Resolve(dir: string, file: string, ext: string, p: Platform): (r: Option<string>)
    ensures r.Some? ==> r.value in p.files
    ensures p.join([dir, file]) in p.files ==> r == Some(p.join([dir, file]))
    ensures p.join([dir, file]) !in p.files ==>
              r == (if IndexFile(dir, file, ext, p) in p.files then Some(IndexFile(dir, file, ext, p)) else None)
  {
    var path := p.join([dir, file]);
    if path in p.files then Some(path)
    else
      var index := IndexFile(dir, file, ext, p);
      if index in p.files then Some(index) else None
  }

  /** The second candidate: `<dir>/<file without ext>/index<ext>`. */
  function IndexFile(dir: string, file: string, ext: string, p: Platform): string {
    p.join([dir, p.basename(file, ext), "index" + ext])
  }

  /** `[].concat(root)`: an array of roots, or a single root. */
  function RootList(root: Value): (roots: seq<Value>)
    ensures root.Arr? ==> roots == root.elems
    ensures !root.Arr? ==> roots == [root]
  {
    if root.Arr? then root.elems else [root]
  }

  /** A single root that is not an array is the only root searched; an
      array's roots are searched in their own order. */
  lemma SingleRootLookup(root: Value, name: string, ext: string, p: Platform)
    ensures !root.Arr? ==> FirstResolved(RootList(root), name, ext, p) == ResolveAgainst(root, name, ext, p)
    ensures root.Arr? ==> FirstResolved(RootList(root), name, ext, p) == FirstResolved(root.elems, name, ext, p)
  {
    if !root.Arr? {
      assert [root][1..] == [];
    }
  }

  /** One turn of the lookup loop: the name is resolved against the root
      (which `path.resolve` insists is a string) and split into directory
      and file for `Resolve`. */
  function ResolveAgainst(root: Value, name: string, ext: string, p: Platform): Result<Option<string>, Error> {
    if !root.Str? then Err(InvalidPathArgument(root))
    else
      var loc := p.resolve(root.s, name);
      Ok(Resolve(p.dirname(loc), p.basename(loc, ""), ext, p))
  }

  /** The lookup's result over a list of roots, searched from the front:
      the first hit, or nothing when every root misses. */
  function FirstResolved(roots: seq<Value>, name: string, ext: string, p: Platform): Result<Option<string>, Error>
    decreases |roots|
  {
    if roots == [] then Ok(None)
    else
      match ResolveAgainst(roots[0], name, ext, p)
      case Err(e) => Err(e)
      case Ok(None) => FirstResolved(roots[1..], name, ext, p)
      case Ok(found) => Ok(found)
  }

  /** `View.prototype.lookup`: try the roots in order and stop at the first
      one where the file resolves. */
  method Lookup(root: Value, name: string, ext: string, p: Platform) returns (path: Result<Option<string>, Error>)
    ensures path == FirstResolved(RootList(root), name, ext, p)
  {
    var roots := RootList(root);
    var found: Option<string> := None;
    var i := 0;
    while i < |roots| && found.None?
      invariant 0 <= i <= |roots|
      invariant found.Some? ==> FirstResolved(roots, name, ext, p) == Ok(found)
      invariant found.None? ==> FirstResolved(roots, name, ext, p) == FirstResolved(roots[i..], name, ext, p)
    {
      assert roots[i..][0] == roots[i] && roots[i..][1..] == roots[i + 1..];
      var r := roots[i];
      if !r.Str? {
        return Err(InvalidPathArgument(r));
      }
      var loc := p.resolve(r.s, name);
      var dir := p.dirname(loc);
      var file := p.basename(loc, "");
      found := Resolve(dir, file, ext, p);
      i := i + 1;
    }
    path := Ok(found);
  }

  /** Skipping roots that miss: once the first `i` roots all miss, the
      lookup is decided by root `i` and the ones after it. */
  lemma {:induction false} MissesSkipped(roots: seq<Value>, name: string, ext: string, p: Platform, i: nat)
    requires i <= |roots|
    requires forall j :: 0 <= j < i ==> ResolveAgainst(roots[j], name, ext, p) == Ok(None)
    ensures FirstResolved(roots, name, ext, p) == FirstResolved(roots[i..], name, ext, p)
  {
    if i > 0 {
      assert roots[1..][i - 1..] == roots[i..];
      forall j | 0 <= j < i - 1
        ensures ResolveAgainst(roots[1..][j], name, ext, p) == Ok(None)
      {
        assert roots[1..][j] == roots[j + 1];
      }
      MissesSkipped(roots[1..], name, ext, p, i - 1);
    }
  }

  /** The earliest root where the file resolves gives the lookup's result,
      and so does an earlier root whose name cannot be resolved. */
  lemma EarliestRootDecides(roots: seq<Value>, name: string, ext: string, p: Platform, i: nat)
    requires i < |roots|
    requires forall j :: 0 <= j < i ==> ResolveAgainst(roots[j], name, ext, p) == Ok(None)
    requires ResolveAgainst(roots[i], name, ext, p) != Ok(None)
    ensures FirstResolved(roots, name, ext, p) == ResolveAgainst(roots[i], name, ext, p)
  {
    MissesSkipped(roots, name, ext, p, i);
    assert roots[i..][0] == roots[i];
  }

  /** The lookup finds nothing exactly when every root misses. */
  lemma {:induction false} NothingFoundIffAllMiss(roots: seq<Value>, name: string, ext: string, p: Platform)
    ensures FirstResolved(roots, name, ext, p) == Ok(None)
        <==> forall j :: 0 <= j < |roots| ==> ResolveAgainst(roots[j], name, ext, p) == Ok(None)
  {
    if roots != [] {
      NothingFoundIffAllMiss(roots[1..], name, ext, p);
      assert forall j :: 1 <= j < |roots| ==> roots[1..][j - 1] == roots[j];
      if ResolveAgainst(roots[0], name, ext, p) == Ok(None) {
        assert forall j :: 0 <= j < |roots| - 1 ==> roots[1..][j] == roots[j + 1];
      }
    }
  }

  /** Once a root decides the lookup, roots after it are never consulted:
      appending more roots, even invalid ones, changes nothing. */
  lemma {:induction false} LaterRootsIgnored(roots: seq<Value>, more: seq<Value>, name: string, ext: string, p: Platform)
    requires FirstResolved(roots, name, ext, p) != Ok(None)
    ensures FirstResolved(roots + more, name, ext, p) == FirstResolved(roots, name, ext, p)
  {
    assert roots != [];
    assert (roots + more)[0] == roots[0];
    assert (roots + more)[1..] == roots[1..] + more;
    if ResolveAgainst(roots[0], name, ext, p) == Ok(None) {
      LaterRootsIgnored(roots[1..], more, name, ext, p);
    }
  }

  /** What the lookup finds is an existing file. */
  lemma {:induction false} FoundFileExists(roots: seq<Value>, name: string, ext: string, p: Platform)
    requires FirstResolved(roots, name, ext, p).Ok? && FirstResolved(roots, name, ext, p).value.Some?
    ensures FirstResolved(roots, name, ext, p).value.value in p.files
  {
    if ResolveAgainst(roots[0], name, ext, p) == Ok(None) {
      FoundFileExists(roots[1..], name, ext, p);
    }
  }

  /** What constructing a view does: the engines table it leaves and the
      view or the error it throws. */
  datatype Construction = Construction(engines: map<string, Value>, view: Result<View, Error>)

  /** The constructor, step by step: naming, engine, lookup. The engine is
      installed before the lookup, so a lookup that throws still leaves the
      installed engine in the table. */
  function Construct(name: string, defaultEngine: Value, root: Value, engines: map<string, Value>, p: Platform): (c: Construction)
    ensures c.view.Ok? ==> c.view.value.ext in c.engines && c.view.value.engine == c.engines[c.view.value.ext]
    ensures c.view.Ok? ==> c.view.value.name == name && c.view.value.root == root
                           && c.view.value.defaultEngine == defaultEngine
  {
    match Derive(name, defaultEngine, p)
    case Err(e) => Construction(engines, Err(e))
    case Ok(naming) =>
      match InstallEngine(engines, naming.ext, p)
      case Err(e) => Construction(engines, Err(e))
      case Ok(table) =>
        match FirstResolved(RootList(root), naming.fileName, naming.ext, p)
        case Err(e) => Construction(table, Err(e))
        case Ok(path) => Construction(table, Ok(View(defaultEngine, naming.ext, name, root, table[naming.ext], path)))
  }

  /** Constructing a view never replaces a truthy engine entry, and adds
      at most the entry for the view's extension. */
  lemma ConstructKeepsEngines(name: string, defaultEngine: Value, root: Value, engines: map<string, Value>, p: Platform)
    ensures var c := Construct(name, defaultEngine, root, engines, p);
      && (forall k :: k in engines && Truthy(engines[k]) ==> k in c.engines && c.engines[k] == engines[k])
      && (Derive(name, defaultEngine, p).Ok? ==> c.engines.Keys <= engines.Keys + {Derive(name, defaultEngine, p).value.ext})
      && (Derive(name, defaultEngine, p).Err? ==> c.engines == engines)
  {
  }

  /** The constructor's contract in the source's own terms: the extension
      and file name come from `Derive`, the path is the lookup of that file
      name under the view's roots, and the engine is the table's entry,
      loaded only when the entry was falsy. */
  lemma ConstructedView(name: string, defaultEngine: Value, root: Value, engines: map<string, Value>, p: Platform)
    requires Construct(name, defaultEngine, root, engines, p).view.Ok?
    ensures var v := Construct(name, defaultEngine, root, engines, p).view.value;
      var naming := Derive(name, defaultEngine, p);
      && naming.Ok? && v.ext == naming.value.ext
      && FirstResolved(RootList(root), naming.value.fileName, v.ext, p) == Ok(v.path)
      && (Truthy(Get(engines, v.ext)) ==> v.engine == engines[v.ext])
      && (!Truthy(Get(engines, v.ext)) ==> LoadEngine(EngineModule(v.ext), p) == Ok(v.engine))
  {
  }

  /** The constructor with its side effect on the shared engines table. */
  method NewView(name: string, defaultEngine: Value, root: Value, engines: EngineTable, p: Platform)
    returns (r: Result<View, Error>)
    modifies engines
    ensures r == Construct(name, defaultEngine, root, old(engines.table), p).view
    ensures engines.table == Construct(name, defaultEngine, root, old(engines.table), p).engines
  {
    var ext := p.extname(name);
    if ext == "" && !Truthy(defaultEngine) {
      return Err(NoDefaultEngine);
    }
    var fileName := name;
    if ext == "" {
      ext := DotExtension(defaultEngine);
      fileName := fileName + ext;
    }
    var installed := engines.Install(ext, p);
    if installed.Fail? {
      return Err(installed.error);
    }
    var engine := Get(engines.table, ext);
    var path := Lookup(root, fileName, ext, p);
    if path.Err? {
      return Err(path.error);
    }
    r := Ok(View(defaultEngine, ext, name, root, engine, path.value));
  }
}
