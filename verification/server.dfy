/**
 * The server's own request-shaping decisions: the CORS origin callback,
 * the body-accessor selection of the request proxy, and the `/rpc`
 * middleware that creates the context, dispatches, and either answers or
 * falls through to `next()`.
 */
module Server {
  import opened Wrappers
  import opened Contracts
  import opened Orpc
  import opened Routers

  /** `allowedOrigins`. */
  const AllowedOrigins: seq<string> := ["http://localhost:3001", "http://localhost:8081"]

  /**
   * The CORS `origin` callback. Hono hands it the request's Origin header,
   * or the empty string when there is none.
   */
  function CorsOrigin(origin: string): (allow: string)
    ensures origin == "" ==> allow == "*"
    ensures origin != "" ==> (allow == origin <==> origin in AllowedOrigins)
    ensures origin != "" && origin !in AllowedOrigins ==> allow == ""
    ensures allow == "*" || allow == "" || allow in AllowedOrigins
  {
    if origin == "" then "*"
    else if origin in AllowedOrigins then origin
    else ""
  }

  /** The body-reading methods of a request. */
  datatype BodyParser = ArrayBuffer | Blob | FormData | Json | Text

  /** The property name under which a request exposes each body-reading method. */
  function ParserName(m: BodyParser): string {
    match m
    case ArrayBuffer => "arrayBuffer"
    case Blob => "blob"
    case FormData => "formData"
    case Json => "json"
    case Text => "text"
  }

  /** `BODY_PARSER_METHODS`. */
  const BodyParserMethods: set<string> := {"arrayBuffer", "blob", "formData", "json", "text"}

  /** `BODY_PARSER_METHODS.has(name)`, naming the method it found. */
  function ParserNamed(name: string): (r: Option<BodyParser>)
    ensures r.Some? <==> name in BodyParserMethods
    ensures r.Some? ==> ParserName(r.value) == name
  {
    if name == "arrayBuffer" then Some(ArrayBuffer)
    else if name == "blob" then Some(Blob)
    else if name == "formData" then Some(FormData)
    else if name == "json" then Some(Json)
    else if name == "text" then Some(Text)
    else None
  }

  /** Each body-reading method is found again under its own name. */
  lemma ParserNamesRoundTrip(m: BodyParser)
    ensures ParserName(m) in BodyParserMethods
    ensures ParserNamed(ParserName(m)) == Some(m)
  {
  }

  /** A property key read through the proxy: a string name or a symbol. */
  datatype PropertyKey = Named(name: string) | Symbol(id: nat)

  /**
   * Where a property read on the proxied request is served from: the
   * framework's own body accessor (`c.req[prop]()`), or the raw request.
   */
  datatype Accessor = FrameworkBody(parser: BodyParser) | RawProperty(key: PropertyKey)

  /**
   * The proxy's `get` trap: the five body-reading names go to the
   * framework accessor, every other key to the raw request unchanged.
   */
  function ProxyGet(prop: PropertyKey): (a: Accessor)
    ensures a.FrameworkBody? <==> prop.Named? && prop.name in BodyParserMethods
    ensures a.FrameworkBody? ==> prop == Named(ParserName(a.parser))
    ensures a.RawProperty? ==> a.key == prop
  {
    match prop
    case Symbol(_) => RawProperty(prop)
    case Named(name) =>
      match ParserNamed(name)
      case Some(m) => FrameworkBody(m)
      case None => RawProperty(prop)
  }

  /** The mount point's single path segment. */
  const RpcMountSegment := "rpc"

  /** The mount point as path segments: the route of the RPC middleware and the handler's prefix. */
  const RpcPrefixSegments: Path := [RpcMountSegment]

  /** The mount point as a URL path, `prefix: "/rpc"`. */
  const RpcPrefix := "/" + RpcMountSegment

  /** An inbound request: its URL path as segments and its decoded input. */
  datatype RpcRequest = RpcRequest(path: Path, input: GreetingInput)

  /** Whether `path` starts with the segments of `prefix`. */
  predicate Under(path: Path, prefix: Path) {
    |prefix| <= |path| && path[..|prefix|] == prefix
  }

  /**
   * Whether the RPC middleware's route sends a request to the RPC middleware: its
   * path lies under the mount point.
   */
  predicate RoutedToRpc(req: RpcRequest) {
    Under(req.path, RpcPrefixSegments)
  }

  /** What the RPC middleware does, in order. */
  datatype Event =
    | ContextCreated(context: Context)
    | Handled(context: Context, outcome: DispatchOutcome)
    | Responded(execution: Execution)
    | NextCalled

  /**
   * `handler.handle(request, { prefix, context })`: a request outside the
   * prefix is unmatched; otherwise the rest of its path is dispatched.
   */
  function HandleUnder(router: RouterNode, prefix: Path, req: RpcRequest, ctx: Context): (d: DispatchOutcome)
    ensures d.Matched? <==> Under(req.path, prefix) && Resolve(router, req.path[|prefix|..]).Some?
    ensures d.Matched? ==> d == Dispatch(router, req.path[|prefix|..], ctx, req.input)
  {
    if Under(req.path, prefix) then
      Dispatch(router, req.path[|prefix|..], ctx, req.input)
    else
      Unmatched
  }

  /**
   * The app's handling of one request as far as the RPC middleware is
   * concerned. A request outside `/rpc` never reaches the middleware, so
   * nothing happens. One inside it has its context created once, first;
   * that context and the request go to the RPC handler; a matched call is
   * answered with the handler's result, and an unmatched one calls `next()`.
   */
  function ServeRpc(router: RouterNode, req: RpcRequest, createContext: RpcRequest -> Context): (trace: seq<Event>)
    ensures !RoutedToRpc(req) <==> trace == []
    ensures RoutedToRpc(req) ==> |trace| == 3
    ensures RoutedToRpc(req) ==> trace[0] == ContextCreated(createContext(req))
    ensures forall i :: 0 < i < |trace| ==> !trace[i].ContextCreated?
    ensures RoutedToRpc(req) ==>
      trace[1] == Handled(createContext(req), HandleUnder(router, RpcPrefixSegments, req, createContext(req)))
    ensures RoutedToRpc(req) ==> (trace[2].Responded? <==> trace[1].outcome.Matched?)
    ensures RoutedToRpc(req) && trace[2].Responded? ==> trace[2].execution == trace[1].outcome.execution
    ensures RoutedToRpc(req) ==> (trace[2].NextCalled? <==> trace[1].outcome.Unmatched?)
  {
    if !RoutedToRpc(req) then []
    else
      var context := createContext(req);
      var outcome := HandleUnder(router, RpcPrefixSegments, req, context);
      var reply := if outcome.Matched? then Responded(outcome.execution) else NextCalled;
      [ContextCreated(context), Handled(context, outcome), reply]
  }

  /**
   * Under `appRouter`, the server answers exactly the two greeting paths
   * below `/rpc` and passes every other request under `/rpc` on to `next()`.
   */
  lemma ServeAppRouter(req: RpcRequest, createContext: RpcRequest -> Context)
    ensures var trace := ServeRpc(AppRouter(), req, createContext);
      (|trace| == 3 && trace[2].Responded?)
        <==> (req.path == RpcPrefixSegments + PublicGreetingPath
              || req.path == RpcPrefixSegments + PrivateGreetingPath)
  {
    var ctx := createContext(req);
    if RoutedToRpc(req) {
      var rest := req.path[|RpcPrefixSegments|..];
      DispatchOtherPaths(rest, ctx, req.input);
      assert req.path == RpcPrefixSegments + rest;
    } else {
      assert (RpcPrefixSegments + PublicGreetingPath)[..1] == RpcPrefixSegments;
      assert (RpcPrefixSegments + PrivateGreetingPath)[..1] == RpcPrefixSegments;
    }
  }
}
