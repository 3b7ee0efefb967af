/** JavaScript values as the application code sees them, the coercions it
    relies on (truthiness, `typeof … === 'function'`, string conversion), the
    array helpers it calls, and the errors it throws. */
module Js {

  datatype Option<+T> = None | Some(value: T)

  datatype Result<+T, +E> = Ok(value: T) | Err(error: E)

  datatype Outcome<+E> = Pass | Fail(error: E)

  /** A JavaScript value. Functions defined outside the core are named by an
      identifier; an application is a function that also exposes `handle`
      and `set`, and carries the object that implements it. */
  datatype Value =
    | Undefined
    | Null
    | Bool(b: bool)
    | Num(n: int)
    | Str(s: string)
    | Func(id: nat)
    | AppFn(app: object)
    | ViewClass
    | Arr(elems: seq<Value>)
    | Obj(props: map<string, Value>)

  /** `Boolean(v)`: the falsy values are undefined, null, false, 0 and "". */
  predicate Truthy(v: Value) {
    match v
    case Undefined => false
    case Null => false
    case Bool(b) => b
    case Num(n) => n != 0
    case Str(s) => s != ""
    case _ => true
  }

  /** `typeof v === 'function'`. */
  predicate IsFunction(v: Value) {
    v.Func? || v.AppFn? || v.ViewClass?
  }

  /** `v == null`: loose equality with null. */
  predicate IsNullish(v: Value) {
    v.Undefined? || v.Null?
  }

  /** Reading a key of a plain object: a missing key reads as undefined. */
  function Get(m: map<string, Value>, key: string): Value {
    if key in m then m[key] else Undefined
  }

  /** `v[key]` for a value that is not undefined or null. */
  function Property(v: Value, key: string): Value {
    if v.Obj? then Get(v.props, key) else Undefined
  }

  /** The own enumerable properties `mixin` copies from a source value. */
  function OwnProperties(v: Value): map<string, Value> {
    if v.Obj? then v.props else map[]
  }

  /** Whether `v[0] === '.'`. */
  predicate IndexZeroIsDot(v: Value) {
    match v
    case Str(s) => |s| > 0 && s[0] == '.'
    case Arr(es) => |es| > 0 && es[0] == Str(".")
    case Obj(props) => Get(props, "0") == Str(".")
    case _ => false
  }

  function Digit(d: nat): char
    requires d < 10
  {
    "0123456789"[d]
  }

  function NatToString(n: nat): (r: string)
    ensures |r| > 0
  {
    if n < 10 then [Digit(n)] else NatToString(n / 10) + [Digit(n % 10)]
  }

  /** Decimal form of an integer, as `String(n)` writes it. */
  function IntToString(n: int): string {
    if n < 0 then "-" + NatToString(-n) else NatToString(n)
  }

  /** `ss.join(sep)`. */
  function Join(ss: seq<string>, sep: string): string {
    if ss == [] then ""
    else if |ss| == 1 then ss[0]
    else ss[0] + sep + Join(ss[1..], sep)
  }

  /** A join starts with its first string. */
  lemma {:induction false} JoinStartsWithFirst(ss: seq<string>, sep: string)
    requires ss != []
    ensures |Join(ss, sep)| >= |ss[0]| && Join(ss, sep)[..|ss[0]|] == ss[0]
  {
    if |ss| > 1 {
      assert Join(ss, sep) == ss[0] + (sep + Join(ss[1..], sep));
    }
  }

  /** `String(v)`, also the conversion of `+` on strings and of property keys.
      The source text of a function is not modelled and reads as "function". */
  function JsString(v: Value): string
    decreases v, 1
  {
    match v
    case Undefined => "undefined"
    case Null => "null"
    case Bool(b) => if b then "true" else "false"
    case Num(n) => IntToString(n)
    case Str(s) => s
    case Func(_) => "function"
    case AppFn(_) => "function"
    case ViewClass => "function"
    case Arr(es) => Join(JoinedElements(es), ",")
    case Obj(_) => "[object Object]"
  }

  /** The strings `Array.prototype.join` puts between separators: undefined
      and null elements become empty strings. */
  function JoinedElements(es: seq<Value>): (r: seq<string>)
    ensures |r| == |es|
    decreases es, 0
  {
    seq(|es|, i requires 0 <= i < |es| => if IsNullish(es[i]) then "" else JsString(es[i]))
  }

  /** `flatten` of the array-flatten package: nested arrays at every depth
      are replaced by their elements, in order. */
  function Flatten(vs: seq<Value>): (r: seq<Value>)
    ensures forall v <- r :: !v.Arr?
    decreases vs, 0
  {
    if vs == [] then [] else FlattenValue(vs[0]) + Flatten(vs[1..])
  }

  function FlattenValue(v: Value): (r: seq<Value>)
    ensures forall x <- r :: !x.Arr?
    decreases v, 1
  {
    if v.Arr? then Flatten(v.elems) else [v]
  }

  lemma {:induction false} FlattenAppend(a: seq<Value>, b: seq<Value>)
    ensures Flatten(a + b) == Flatten(a) + Flatten(b)
    decreases |a|
  {
    if a != [] {
      assert (a + b)[0] == a[0] && (a + b)[1..] == a[1..] + b;
      FlattenAppend(a[1..], b);
      calc {
        Flatten(a + b);
        FlattenValue(a[0]) + Flatten(a[1..] + b);
        FlattenValue(a[0]) + (Flatten(a[1..]) + Flatten(b));
        (FlattenValue(a[0]) + Flatten(a[1..])) + Flatten(b);
        Flatten(a) + Flatten(b);
      }
    } else {
      assert a + b == b;
    }
  }

  /** Flattening one more element appends that element's leaves. */
  lemma FlattenSnoc(vs: seq<Value>, i: nat)
    requires i < |vs|
    ensures Flatten(vs[..i + 1]) == Flatten(vs[..i]) + FlattenValue(vs[i])
  {
    assert vs[..i + 1] == vs[..i] + [vs[i]];
    FlattenAppend(vs[..i], [vs[i]]);
    assert Flatten([vs[i]]) == FlattenValue(vs[i]) + Flatten([]);
  }

  /** Flattening a sequence without arrays leaves it as it is. */
  lemma {:induction false} FlattenLeaves(vs: seq<Value>)
    requires forall v <- vs :: !v.Arr?
    ensures Flatten(vs) == vs
  {
    if vs != [] {
      FlattenLeaves(vs[1..]);
    }
  }

  /** The value reached from `v` by taking element 0 while it is a non-empty
      array. */
  function FirstLeaf(v: Value): (r: Value)
    ensures !(r.Arr? && r.elems != [])
  {
    if v.Arr? && v.elems != [] then FirstLeaf(v.elems[0]) else v
  }

  /** When that first leaf is a function, it is also the first value
      `flatten` yields: no empty array precedes it. */
  lemma {:induction false} FunctionLeafIsFirstFlattened(v: Value)
    requires IsFunction(FirstLeaf(v))
    ensures FlattenValue(v) != [] && FlattenValue(v)[0] == FirstLeaf(v)
  {
    if v.Arr? && v.elems != [] {
      var es := v.elems;
      assert es == [es[0]] + es[1..];
      FunctionLeafIsFirstFlattened(es[0]);
      assert Flatten(es) == FlattenValue(es[0]) + Flatten(es[1..]);
    }
  }

  /** The errors the core throws or hands to a callback. */
  datatype Error =
    | MiddlewareRequired
    | CallbackRequired
    | NoDefaultEngine
    | NotAViewEngine(mod: string)
    | ModuleNotFound(mod: string)
    | InvalidPathArgument(arg: Value)
    | NoProperties(key: string, of: Value)
    | ViewNotFound(name: string, root: Value)

  /** The `message` of each error. */
  function Message(e: Error): string {
    match e
    case MiddlewareRequired => "app.use() requires a middleware function"
    case CallbackRequired => "callback function required"
    case NoDefaultEngine => "No default engine was specified and no extension was provided."
    case NotAViewEngine(mod) => "Module \"" + mod + "\" does not provide a view engine."
    case ModuleNotFound(mod) => "Cannot find module '" + mod + "'"
    case InvalidPathArgument(_) => "The \"path\" argument must be of type string."
    case NoProperties(key, of) => "Cannot read properties of " + JsString(of) + " (reading '" + key + "')"
    case ViewNotFound(name, root) => "Failed to lookup view \"" + name + "\" in views " + Directories(root)
  }

  /** How the not-found message names the view roots: an array of more than
      one root lists them all, anything else is named as one directory. */
  function Directories(root: Value): (r: string)
    ensures root.Arr? && |root.elems| > 1 ==> |r| > 13 && r[..13] == "directories \""
    ensures !(root.Arr? && |root.elems| > 1) ==> r == "directory \"" + JsString(root) + "\""
  {
    if root.Arr? && |root.elems| > 1 then
      var n := |root.elems|;
      "directories \"" + Join(JoinedElements(root.elems[..n - 1]), "\", \"")
        + "\" or \"" + JsString(root.elems[n - 1]) + "\""
    else
      "directory \"" + JsString(root) + "\""
  }

  /** With two roots the message names both, the last after "or". */
  lemma TwoDirectoriesNamed(a: string, b: string)
    ensures Directories(Arr([Str(a), Str(b)])) == "directories \"" + a + "\" or \"" + b + "\""
  {
    assert [Str(a), Str(b)][..1] == [Str(a)];
    assert JoinedElements([Str(a)]) == [a];
  }
}
