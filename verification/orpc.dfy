/**
 * The server's procedure builders and its one middleware: `publicProcedure`
 * carries no middleware, `protectedProcedure` adds the authentication
 * middleware, which rejects a context without `session.user`.
 */
module Orpc {
  import opened Wrappers
  import opened JsValues
  import opened Contracts

  /** The per-request context object, a JavaScript record. */
  type Context = map<string, Value>

  /** An `ORPCError`: a code and a message. */
  datatype RpcError = RpcError(code: string, message: string)

  /** The error the authentication middleware throws. */
  const AuthRequired := RpcError("UNAUTHORIZED", "Authentication required")

  /** `context.session?.user`. */
  function SessionUser(ctx: Context): Value {
    OptionalGet(Get(ctx, "session"), "user")
  }

  /** The middleware's guard passes: `context.session?.user` is truthy. */
  predicate Authenticated(ctx: Context) {
    Truthy(SessionUser(ctx))
  }

  /**
   * `after` keeps every key of `before`, and every value except possibly
   * the one under `user`, which a middleware may set.
   */
  predicate Extends(before: Context, after: Context) {
    && before.Keys <= after.Keys
    && forall k :: k in before && k != "user" ==> after[k] == before[k]
  }

  /**
   * What a middleware does with its continuation: call `next` once with a
   * context, or throw without calling it.
   */
  datatype Step = CallNext(context: Context) | Throw(error: RpcError)

  /** `authMiddlewareFunction`. */
  function AuthMiddlewareFunction(ctx: Context): (s: Step)
    ensures s.Throw? <==> !Authenticated(ctx)
    ensures s.Throw? ==> s.error == AuthRequired
    ensures s.CallNext? ==> Extends(ctx, s.context)
    ensures s.CallNext? ==> s.context.Keys == ctx.Keys + {"user"}
    ensures s.CallNext? ==> s.context["user"] == SessionUser(ctx)
    ensures s.CallNext? ==> Get(s.context, "session") == Get(ctx, "session")
  {
    if !Truthy(SessionUser(ctx)) then
      Throw(AuthRequired)
    else
      CallNext(ctx["user" := SessionUser(ctx)])
  }

  /** The middlewares this repository defines: only `authMiddleware`. */
  datatype Middleware = AuthMiddleware

  function Apply(m: Middleware, ctx: Context): Step {
    match m
    case AuthMiddleware => AuthMiddlewareFunction(ctx)
  }

  /**
   * A builder bound to a contract: the result of `implement(contract)`,
   * with the middlewares attached so far, in order.
   */
  datatype Implementer = Implementer(contract: ContractNode, middlewares: seq<Middleware>)

  /** `implement(contract)` followed by `.$context<Context>()`: no middleware yet. */
  function Implement(contract: ContractNode): Implementer {
    Implementer(contract, [])
  }

  /** `.use(m)`: appends `m` after the middlewares already attached. */
  function Use(b: Implementer, m: Middleware): Implementer {
    Implementer(b.contract, b.middlewares + [m])
  }

  /** `publicProcedure`: bound to the application contract, with no middleware. */
  function PublicProcedure(): (b: Implementer)
    ensures b.contract == AppContract()
    ensures b.middlewares == []
  {
    Implement(AppContract())
  }

  /**
   * `protectedProcedure`: the public builder over the same contract with
   * exactly `authMiddleware` added.
   */
  function ProtectedProcedure(): (b: Implementer)
    ensures b.contract == PublicProcedure().contract
    ensures b.middlewares == PublicProcedure().middlewares + [AuthMiddleware]
    ensures b.middlewares == [AuthMiddleware]
  {
    Use(PublicProcedure(), AuthMiddleware)
  }

  /**
   * Runs a middleware list front to back, each one handing its context to
   * the next, as nested `next` calls do. The list succeeds iff it holds no
   * authentication middleware or the initial context is authenticated; on
   * success no key is lost and the session is untouched.
   */
  function RunMiddlewares(mws: seq<Middleware>, ctx: Context): (r: Result<Context, RpcError>)
    ensures r.Success? <==> (AuthMiddleware !in mws || Authenticated(ctx))
    ensures r.Failure? ==> r.error == AuthRequired
    ensures r.Success? ==> Extends(ctx, r.value)
    ensures r.Success? ==> Get(r.value, "session") == Get(ctx, "session")
    ensures r.Success? && AuthMiddleware in mws ==> r.value.Keys == ctx.Keys + {"user"}
    ensures r.Success? && AuthMiddleware in mws ==> r.value["user"] == SessionUser(ctx)
    ensures r.Success? && AuthMiddleware !in mws ==> r.value == ctx
    decreases |mws|
  {
    if mws == [] then
      Success(ctx)
    else
      assert mws[0] == AuthMiddleware && AuthMiddleware in mws;
      match Apply(mws[0], ctx)
      case Throw(e) => Failure(e)
      case CallNext(next) => RunMiddlewares(mws[1..], next)
  }
}
