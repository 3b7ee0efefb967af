/** The query-string middleware of lib/middleware/query.js: a factory that
    normalises its options once, and the request handler it returns. */
module Query {
  import opened Js

  /** The function the handler parses with: `qs.parse`, or the function the
      caller passed in place of options. */
  datatype Parser = QsParse | Custom(fn: Value)

  /** What the returned handler closes over: its parser and the options it
      passes to every parse (undefined when a custom parser was given). */
  datatype Handler = Handler(parser: Parser, opts: Value)

  /** The foreign functions the handler calls. */
  datatype Runtime = Runtime(
    urlQuery: string -> Value,           // `parseUrl(req).query` for a request URL
    qsParse: (Value, Value) -> Value,    // `qs.parse(str, opts)`
    call: (Value, seq<Value>) -> Value)  // the result of calling a caller-supplied function

  /** The factory: a function argument replaces the parser and leaves the
      options undefined; any other argument has its own properties copied
      into a fresh options object, in which `allowPrototypes` defaults to
      true when it is missing or undefined. */
  function Create(options: Value): (h: Handler)
    ensures h.parser.Custom? <==> IsFunction(options)
    ensures h.parser.Custom? ==> h.parser.fn == options && h.opts == Undefined
    ensures h.parser.QsParse? ==> h.opts.Obj?
    ensures h.parser.QsParse? ==>
              h.opts.props.Keys == OwnProperties(options).Keys + {"allowPrototypes"}
    ensures h.parser.QsParse? ==>
              forall k <- OwnProperties(options) :: k != "allowPrototypes" ==> h.opts.props[k] == OwnProperties(options)[k]
    ensures h.parser.QsParse? ==>
              Get(h.opts.props, "allowPrototypes")
              == (if Get(OwnProperties(options), "allowPrototypes") == Undefined then Bool(true)
                  else OwnProperties(options)["allowPrototypes"])
  {
    var copy := OwnProperties(options);
    if IsFunction(options) then
      Handler(Custom(options), Undefined)
    else if Get(copy, "allowPrototypes") == Undefined then
      Handler(QsParse, Obj(copy["allowPrototypes" := Bool(true)]))
    else
      Handler(QsParse, Obj(copy))
  }

  /** `queryparse(val, opts)`. */
  function Parse(h: Handler, str: Value, rt: Runtime): Value {
    match h.parser
    case QsParse => rt.qsParse(str, h.opts)
    case Custom(fn) => rt.call(fn, [str, h.opts])
  }

  /** The request's `req.query` after the handler ran, given its value
      before: a truthy value is kept, anything else is replaced by the parse
      of the URL's query string. */
  function QueryAfter(h: Handler, query: Value, url: string, rt: Runtime): Value {
    if Truthy(query) then query else Parse(h, rt.urlQuery(url), rt)
  }

  /** The part of an incoming request the handler reads and writes. */
  class Request {
    var url: string
    var query: Value

    constructor (url: string, query: Value)
      ensures this.url == url && this.query == query
    {
      this.url := url;
      this.query := query;
    }
  }

  /** One invocation of the `next` continuation, with its arguments. */
  datatype NextCall = NextCall(args: seq<Value>)

  /** The handler `(req, res, next)`: it parses only when `req.query` is
      falsy, changes nothing else on the request, and calls `next` exactly
      once with no argument. */
  method Handle(h: Handler, req: Request, rt: Runtime) returns (nexts: seq<NextCall>)
    modifies req`query
    ensures Truthy(old(req.query)) ==> req.query == old(req.query)
    ensures !Truthy(old(req.query)) ==> req.query == Parse(h, rt.urlQuery(req.url), rt)
    ensures req.query == QueryAfter(h, old(req.query), req.url, rt)
    ensures nexts == [NextCall([])]
  {
    if !Truthy(req.query) {
      var val := rt.urlQuery(req.url);
      req.query := Parse(h, val, rt);
    }
    nexts := [NextCall([])];
  }

  /** A second run of the handler on the same request changes nothing once
      the first run left a truthy `req.query`. */
  lemma HandleTwiceIsHandleOnce(h: Handler, query: Value, url: string, rt: Runtime)
    requires Truthy(QueryAfter(h, query, url, rt))
    ensures QueryAfter(h, QueryAfter(h, query, url, rt), url, rt) == QueryAfter(h, query, url, rt)
  {
  }

  /** Options whose `allowPrototypes` is anything but undefined come through
      the factory unchanged. */
  lemma ExplicitAllowPrototypesKept(options: Value)
    requires options.Obj? && "allowPrototypes" in options.props
    requires options.props["allowPrototypes"] != Undefined
    ensures Create(options).opts == options
  {
  }
}
