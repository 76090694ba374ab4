/**
 * Procedures, the router tree `appRouter`, path resolution, and the
 * abstract dispatch of one call: run the procedure's middlewares, then its
 * handler.
 */
module Routers {
  import opened Wrappers
  import opened Contracts
  import opened Orpc
  import opened Greetings

  /** A contract leaf bound to the middlewares attached at build time and a handler. */
  datatype Procedure = Procedure(contract: ContractProcedure, middlewares: seq<Middleware>, handler: Handler)

  /** `<builder>.<path>.handler(h)`: finalises the leaf at `path` with the builder's middlewares. */
  function BindHandler(b: Implementer, path: Path, h: Handler): Procedure
    requires ContractLookup(b.contract, path).Some?
  {
    Procedure(ContractLookup(b.contract, path).value, b.middlewares, h)
  }

  /** A router: a procedure or a record of named sub-routers. */
  datatype RouterNode =
    | RProc(proc: Procedure)
    | RRouter(children: map<string, RouterNode>)

  /** The procedure at `path`, if `path` ends exactly at a procedure. */
  function Resolve(node: RouterNode, path: Path): Option<Procedure>
    decreases |path|
  {
    if path == [] then
      (if node.RProc? then Some(node.proc) else None)
    else if node.RRouter? && path[0] in node.children then
      Resolve(node.children[path[0]], path[1..])
    else
      None
  }

  /** The router or procedure reached by walking the keys of `path`. */
  function Subtree(node: RouterNode, path: Path): Option<RouterNode>
    decreases |path|
  {
    if path == [] then Some(node)
    else if node.RRouter? && path[0] in node.children then
      Subtree(node.children[path[0]], path[1..])
    else
      None
  }

  /**
   * Nested addressing: once `prefix` leads to a sub-router, the paths below
   * it resolve as they do in that sub-router (`appRouter.public.greeting`
   * is `publicRouter.greeting`), and a procedure sits exactly where the walk
   * ends at one.
   */
  lemma {:induction false} ResolveUnder(node: RouterNode, prefix: Path, rest: Path)
    requires Subtree(node, prefix).Some?
    ensures Resolve(node, prefix + rest) == Resolve(Subtree(node, prefix).value, rest)
    ensures Resolve(node, prefix).Some? <==> Subtree(node, prefix).value.RProc?
    decreases |prefix|
  {
    if prefix == [] {
      assert prefix + rest == rest;
    } else {
      assert (prefix + rest)[0] == prefix[0];
      assert (prefix + rest)[1..] == prefix[1..] + rest;
      ResolveUnder(node.children[prefix[0]], prefix[1..], rest);
    }
  }

  /** Puts `mws` in front of the middlewares of every procedure in `node`. */
  function Enhance(mws: seq<Middleware>, node: RouterNode): RouterNode
    decreases node
  {
    match node
    case RProc(p) => RProc(p.(middlewares := mws + p.middlewares))
    case RRouter(children) => RRouter(map k | k in children :: Enhance(mws, children[k]))
  }

  /**
   * An enhanced router resolves the same paths as the original, each to the
   * same procedure with `mws` in front of its middlewares.
   */
  lemma {:induction false} EnhanceResolve(mws: seq<Middleware>, node: RouterNode, path: Path)
    ensures Resolve(Enhance(mws, node), path).Some? <==> Resolve(node, path).Some?
    ensures Resolve(node, path).Some? ==>
      Resolve(Enhance(mws, node), path).value
        == Resolve(node, path).value.(middlewares := mws + Resolve(node, path).value.middlewares)
    decreases |path|
  {
    if path != [] && node.RRouter? && path[0] in node.children {
      EnhanceResolve(mws, node.children[path[0]], path[1..]);
    }
  }

  /** `<builder>.router(children)`: the builder's middlewares apply to every procedure below. */
  function RouterOf(b: Implementer, children: map<string, RouterNode>): RouterNode {
    Enhance(b.middlewares, RRouter(children))
  }

  /** Enhancing with no middleware leaves a router unchanged. */
  lemma {:induction false} EnhanceWithNothing(node: RouterNode)
    ensures Enhance([], node) == node
    decreases node
  {
    match node
    case RProc(p) =>
      assert [] + p.middlewares == p.middlewares;
    case RRouter(children) =>
      forall k | k in children
        ensures Enhance([], children[k]) == children[k]
      {
        EnhanceWithNothing(children[k]);
      }
      assert (map k | k in children :: Enhance([], children[k])) == children;
  }

  /** A record holding one procedure under `key` resolves `[key]` to it and nothing else. */
  lemma SingleProcedureResolve(key: string, proc: Procedure)
    ensures forall p :: Resolve(RRouter(map[key := RProc(proc)]), p)
                     == (if p == [key] then Some(proc) else None)
  {
    var node := RRouter(map[key := RProc(proc)]);
    forall p
      ensures Resolve(node, p) == (if p == [key] then Some(proc) else None)
    {
      if p != [] && p[0] == key && p[1..] == [] {
        assert p == [key];
      }
    }
  }

  /**
   * `publicRouter`: its only procedure, `greeting`, is the greeting leaf
   * bound with no middleware to the public handler.
   */
  function PublicRouter(): (r: RouterNode)
    ensures forall p :: Resolve(r, p) == (if p == ["greeting"]
      then Some(Procedure(GreetingLeaf(), [], PublicGreetingHandler)) else None)
  {
    var proc := BindHandler(PublicProcedure(), PublicGreetingPath, PublicGreetingHandler);
    SingleProcedureResolve("greeting", proc);
    RRouter(map["greeting" := RProc(proc)])
  }

  /**
   * `privateRouter`: its only procedure, `greeting`, is built from
   * `protectedProcedure`, so it carries exactly `authMiddleware` before the
   * private handler.
   */
  function PrivateRouter(): (r: RouterNode)
    ensures forall p :: Resolve(r, p) == (if p == ["greeting"]
      then Some(Procedure(GreetingLeaf(), [AuthMiddleware], PrivateGreetingHandler)) else None)
  {
    var proc := BindHandler(ProtectedProcedure(), PrivateGreetingPath, PrivateGreetingHandler);
    SingleProcedureResolve("greeting", proc);
    RRouter(map["greeting" := RProc(proc)])
  }

  /**
   * `appRouter`: `publicProcedure.router` adds nothing, so it is exactly its
   * two sub-routers under `public` and `private`.
   */
  function AppRouter(): (r: RouterNode)
    ensures r == RRouter(map["public" := PublicRouter(), "private" := PrivateRouter()])
  {
    var children := map["public" := PublicRouter(), "private" := PrivateRouter()];
    EnhanceWithNothing(RRouter(children));
    RouterOf(PublicProcedure(), children)
  }

  /**
   * A router has the contract's shape: the same keys at every level, a
   * procedure exactly where the contract has a leaf, bound to that leaf.
   */
  predicate Mirrors(r: RouterNode, c: ContractNode)
    decreases r
  {
    match r
    case RProc(p) => c.CLeaf? && p.contract == c.proc
    case RRouter(children) =>
      && c.CRouter?
      && children.Keys == c.children.Keys
      && forall k :: k in children ==> Mirrors(children[k], c.children[k])
  }

  /**
   * A router with its contract's shape resolves exactly the contract's leaf
   * paths, each to a procedure bound to that leaf.
   */
  lemma {:induction false} MirrorsResolve(r: RouterNode, c: ContractNode, path: Path)
    requires Mirrors(r, c)
    ensures Resolve(r, path).Some? <==> ContractLookup(c, path).Some?
    ensures Resolve(r, path).Some? ==> Resolve(r, path).value.contract == ContractLookup(c, path).value
    decreases |path|
  {
    if path != [] && r.RRouter? && path[0] in r.children {
      MirrorsResolve(r.children[path[0]], c.children[path[0]], path[1..]);
    }
  }

  /** The public greeting carries no middleware; the private one exactly `authMiddleware`. */
  lemma AppRouterProcedures()
    ensures Resolve(AppRouter(), PublicGreetingPath)
         == Some(Procedure(GreetingLeaf(), [], PublicGreetingHandler))
    ensures Resolve(AppRouter(), PrivateGreetingPath)
         == Some(Procedure(GreetingLeaf(), [AuthMiddleware], PrivateGreetingHandler))
  {
    assert PublicGreetingPath[1..] == ["greeting"];
    assert PrivateGreetingPath[1..] == ["greeting"];
  }

  /**
   * `appRouter` has the contract's shape, with top-level keys exactly
   * `public` and `private`.
   */
  lemma AppRouterMirrorsContract()
    ensures Mirrors(AppRouter(), AppContract())
    ensures AppRouter().RRouter? && AppRouter().children.Keys == {"public", "private"}
  {
    assert PublicGreetingPath[1..] == ["greeting"];
    assert PrivateGreetingPath[1..] == ["greeting"];
    assert Mirrors(PublicRouter(), GreetingPublic());
    assert Mirrors(PrivateRouter(), GreetingPrivate());
  }

  /** The outcome of running one procedure, with the number of handler invocations. */
  datatype Execution = Execution(result: Result<GreetingOutput, RpcError>, handlerCalls: nat)

  /**
   * Runs the procedure's middlewares and then, only if they all call
   * `next`, its handler with the context they produced.
   */
  function Execute(p: Procedure, ctx: Context, input: GreetingInput): (e: Execution)
    ensures e.result.Success? <==> (AuthMiddleware !in p.middlewares || Authenticated(ctx))
    ensures e.result.Failure? ==> e.result.error == AuthRequired && e.handlerCalls == 0
    ensures e.result.Success? ==> e.handlerCalls == 1
    ensures e.result.Success? ==> e.result.value == RunHandler(p.handler, ctx, input)
    ensures e.result.Success? ==> Schema.Accepts(GreetingOutputSchema, EncodeOutput(e.result.value))
  {
    match RunMiddlewares(p.middlewares, ctx)
    case Failure(err) => Execution(Failure(err), 0)
    case Success(next) =>
      HandlerReadsOnlyName(p.handler, next, ctx, input, input);
      Execution(Success(RunHandler(p.handler, next, input)), 1)
  }

  /** Dispatch of one call: a procedure was found and run, or none matched. */
  datatype DispatchOutcome = Unmatched | Matched(execution: Execution)

  /** Resolves `path`; a procedure found there is executed with `ctx` and `input`. */
  function Dispatch(router: RouterNode, path: Path, ctx: Context, input: GreetingInput): (d: DispatchOutcome)
    ensures d.Matched? <==> Resolve(router, path).Some?
    ensures d.Matched? ==> d.execution == Execute(Resolve(router, path).value, ctx, input)
  {
    match Resolve(router, path)
    case None => Unmatched
    case Some(p) => Matched(Execute(p, ctx, input))
  }

  /** `public.greeting` runs the public handler once, whatever the session. */
  lemma DispatchPublicGreeting(ctx: Context, input: GreetingInput)
    ensures Dispatch(AppRouter(), PublicGreetingPath, ctx, input)
         == Matched(Execution(Success(PublicGreeting(input)), 1))
  {
    AppRouterProcedures();
  }

  /**
   * `private.greeting` without a truthy `session.user` is rejected with
   * UNAUTHORIZED and never reaches the handler; with one, the private
   * handler runs once.
   */
  lemma DispatchPrivateGreeting(ctx: Context, input: GreetingInput)
    ensures !Authenticated(ctx) ==>
      Dispatch(AppRouter(), PrivateGreetingPath, ctx, input) == Matched(Execution(Failure(AuthRequired), 0))
    ensures Authenticated(ctx) ==>
      Dispatch(AppRouter(), PrivateGreetingPath, ctx, input) == Matched(Execution(Success(PrivateGreeting(input)), 1))
  {
    AppRouterProcedures();
  }

  /** Any path other than the two greetings resolves to no procedure. */
  lemma DispatchOtherPaths(path: Path, ctx: Context, input: GreetingInput)
    ensures Dispatch(AppRouter(), path, ctx, input).Matched?
        <==> path == PublicGreetingPath || path == PrivateGreetingPath
  {
    AppRouterMirrorsContract();
    MirrorsResolve(AppRouter(), AppContract(), path);
    AppContractLeaves(path);
  }
}
