# Greeting RPC monorepo: a Dafny model of its own decisions

The repository wires a contract-first RPC library to a Hono server and an
Expo client. What it decides for itself is small and pure, and this project
models that, except what `## Left out` lists:

- the shared **contract** with two procedures, `public.greeting` and
  `private.greeting`, each taking `{ name?: string }` and returning
  `{ text: string }` (modules `Schema`, `Contracts`);
- the server's **procedure builders**: `publicProcedure` with no middleware,
  `protectedProcedure` with the authentication middleware appended, and that
  middleware, which throws `UNAUTHORIZED` / `"Authentication required"` unless
  `context.session?.user` is truthy and otherwise calls `next` with the context
  extended by `user` (module `Orpc`);
- the two **greeting handlers** and the router tree `appRouter`, with path
  resolution and an abstract dispatch, "middlewares, then handler", that counts
  handler invocations (modules `Greetings`, `GreetingExamples`, `Routers`);
- the server's **request shaping**: the CORS origin callback, the request
  proxy that sends the five body-reading names to the framework's accessor,
  and the `/rpc` middleware that creates the context once, dispatches, and
  answers or falls through to `next()` (module `Server`);
- the native client's **link**: the `/rpc` URL and the `Cookie` header
  supplier (module `NativeClient`).

Values are JavaScript values (`JsValues.Value`), with JavaScript truthiness,
so the middleware's `!context.session?.user` is modelled as written: a missing
session, a nullish or non-object session, a missing user, or a falsy user
(`""`, `0`, `false`) all reject. The context is a JavaScript record
(`map<string, Value>`); the spread `{...context, user}` keeps every key and
overwrites only `user`, which is what `Orpc.Extends` says.

A path that names no procedure gets no NOT_FOUND error: the RPC handler
reports it unmatched and the server calls `next()`. A context that already
holds a `user` key has it overwritten by the spread. An unset `EXPO_PUBLIC_SERVER_URL` makes the link
URL the literal text `undefined/rpc`, as a template literal does.

## Model

| member | source | states |
|---|---|---|
| Contracts.GreetingPublic | packages/contracts/src/index.ts:5-16 | `greetingPublic` has exactly one procedure, under `greeting`, with input `{ name?: string }` and output `{ text: string }` |
| Contracts.GreetingPrivate | packages/contracts/src/index.ts:18-29 | `greetingPrivate`, written out separately, has exactly one procedure, under `greeting`, with the same input and output shapes as the public one |
| Contracts.AppContract | packages/contracts/src/index.ts:32-35 | `appContract` has exactly the keys `public` and `private`, and both `public.greeting` and `private.greeting` name a procedure with the same input and output shapes |
| Contracts.AppContractLeaves | packages/contracts/src/index.ts:32-35 | the contract resolves a procedure at exactly two paths, `public.greeting` and `private.greeting`, and they are distinct |
| Contracts.InputSchemaAccepts | packages/contracts/src/index.ts:7-10 | an input passes iff it is an object whose `name` is absent, `undefined` or a string |
| Contracts.OutputSchemaAccepts | packages/contracts/src/index.ts:11-14 | an output passes iff it is an object whose `text` is a string |
| Contracts.DecodeInput | packages/contracts/src/index.ts:7-10 | decoding succeeds iff the input shape accepts the value, and the decoded name is present exactly when `name` is a string, carrying that string |
| Contracts.DecodeOutput | packages/contracts/src/index.ts:11-14 | decoding succeeds iff the output shape accepts the value, and the decoded text is the `text` field |
| Contracts.EncodeInput | packages/contracts/src/index.ts:7-10 | every encoded input passes the shape and decodes back to itself |
| Contracts.EncodeOutput | packages/contracts/src/index.ts:11-14 | every encoded output passes the shape and decodes back to itself |
| Orpc.AuthMiddlewareFunction | apps/server/src/lib/orpc.ts:12-25 | throws UNAUTHORIZED with `Authentication required` iff `session?.user` is falsy (so `next` is not called); otherwise calls `next` once with a context that keeps every key, adds only `user`, sets it to `session.user` and leaves the session unchanged |
| Orpc.PublicProcedure | apps/server/src/lib/orpc.ts:7-10 | `publicProcedure` implements `appContract` and carries no middleware |
| Orpc.ProtectedProcedure | apps/server/src/lib/orpc.ts:27-28 | `protectedProcedure` implements the same contract as `publicProcedure`, and its middlewares are the public builder's list with `authMiddleware` appended, which is exactly `[authMiddleware]` |
| Orpc.RunMiddlewares | apps/server/src/lib/orpc.ts:12-28 | a middleware chain succeeds iff it has no auth middleware or the context is authenticated; failure is UNAUTHORIZED; success keeps every key and the session, and sets `user` to `session.user` when the auth middleware ran |
| Greetings.PublicGreeting | apps/server/src/routers/public.ts:6-9 | the text reads back as a public greeting of `name`, or of `Anonymous` only when the name is absent (an empty name is kept) |
| Greetings.PrivateGreeting | apps/server/src/routers/private.ts:6-9 | the text reads back as a private greeting of `name`, or of `Anonymous` only when the name is absent (an empty name is kept) |
| Greetings.HandlerReadsOnlyName | apps/server/src/routers/public.ts:6-7 | a handler's output depends only on `input.name`, never on the context or session |
| Greetings.GreetingsDifferOnlyInScope | apps/server/src/routers/private.ts:7 | for the same input the private and public texts differ only in the word `private` versus `public` |
| GreetingExamples.AnonymousPublicExample | apps/server/src/routers/public.ts:7 | an empty input yields `Hello, Anonymous from public greeting procedure!` |
| GreetingExamples.AnonymousPrivateExample | apps/server/src/routers/private.ts:7 | an empty input yields `Hello, Anonymous from private greeting procedure!` |
| GreetingExamples.NamedPublicExample | apps/server/src/routers/public.ts:7 | the name `Ada` yields `Hello, Ada from public greeting procedure!` |
| Routers.ResolveUnder | apps/server/src/routers/index.ts:5-8 | resolving a path in a nested router is resolving the rest of the path in the sub-router its first segments lead to, and the prefix itself names a procedure iff that sub-router is one |
| Routers.EnhanceResolve | apps/server/src/routers/index.ts:5 | `.router` on a builder resolves exactly the paths the plain router resolves, each to the same procedure with the builder's middlewares in front of its own |
| Routers.PublicRouter | apps/server/src/routers/public.ts:4-11 | `publicRouter` resolves only `greeting`, to the greeting leaf with no middleware and the public handler |
| Routers.PrivateRouter | apps/server/src/routers/private.ts:4-11 | `privateRouter` resolves only `greeting`, to the greeting leaf with exactly `authMiddleware` and the private handler |
| Routers.EnhanceWithNothing | apps/server/src/routers/index.ts:5 | attaching a builder's empty middleware list to a router leaves every procedure unchanged |
| Routers.AppRouter | apps/server/src/routers/index.ts:5-8 | `appRouter` built with `publicProcedure.router` is exactly the two sub-routers under `public` and `private`, unchanged |
| Routers.AppRouterProcedures | apps/server/src/routers/index.ts:5-8 | the public greeting resolves to the greeting leaf with no middleware and the public handler; the private greeting to the same leaf with exactly `authMiddleware` and the private handler |
| Routers.AppRouterMirrorsContract | apps/server/src/routers/index.ts:5-8 | `appRouter` has the contract's shape at every level, with top-level keys exactly `public` and `private` |
| Routers.MirrorsResolve | apps/server/src/routers/index.ts:5-8 | a router with its contract's shape resolves exactly the contract's leaf paths, each to a procedure bound to that leaf |
| Routers.Execute | apps/server/src/routers/private.ts:5-9 | a procedure succeeds iff it has no auth middleware or the context is authenticated; on failure the error is UNAUTHORIZED and the handler ran zero times; on success it ran once and the output is the handler's output for that input |
| Routers.Dispatch | apps/server/src/routers/index.ts:5-8 | a call is matched iff its path resolves to a procedure, and a matched call is that procedure's execution on the given context and input |
| Routers.DispatchPublicGreeting | apps/server/src/routers/index.ts:6 | `public.greeting` runs the public handler once and succeeds whatever the session |
| Routers.DispatchPrivateGreeting | apps/server/src/routers/index.ts:7 | `private.greeting` without `session.user` is UNAUTHORIZED with no handler call; with it, the private handler runs once |
| Routers.DispatchOtherPaths | apps/server/src/routers/index.ts:5-8 | a call is matched iff its path is one of the two greeting paths |
| Server.CorsOrigin | apps/server/src/index.ts:14-20 | an empty Origin gives `*`, an allow-listed Origin is echoed, any other gives the empty string, and nothing else is ever returned |
| Server.ParserNamed | apps/server/src/index.ts:35 | a name is a body-reading method iff it is one of the five, and the method found has that name |
| Server.ParserNamesRoundTrip | apps/server/src/index.ts:35 | each of the five body-reading methods is named by a member of `BODY_PARSER_METHODS` and found again under that name |
| Server.ProxyGet | apps/server/src/index.ts:38-45 | a property read is served by the framework accessor iff it names one of the five body-reading methods; every other read, symbols included, goes to the raw request with the same key |
| Server.HandleUnder | apps/server/src/index.ts:47-50 | the RPC handler matches iff the request path starts with the mount prefix and the rest resolves to a procedure; a matched call is the dispatch of that rest |
| Server.ServeRpc | apps/server/src/index.ts:32-57 | a request outside `/rpc` never reaches the middleware and creates no context; inside it, the context is created exactly once, first, and is the one the handler dispatches with under the `/rpc` prefix; a matched call is answered with that dispatch's execution and an unmatched one calls `next()` |
| Server.ServeAppRouter | apps/server/src/index.ts:47-56 | under `appRouter` the server answers exactly `/rpc/public/greeting` and `/rpc/private/greeting` and passes every other request on |
| NativeClient.LinkUrl | apps/native/utils/orpc.ts:17-18 | the link URL is the server base (or `undefined` when unset) followed by `/` and the same single segment the server mounts its RPC middleware and prefix on |
| NativeClient.ClientHeaders | apps/native/utils/orpc.ts:19-26 | the headers hold a `Cookie` entry, equal to the cookie, exactly when the cookie is non-null and non-empty, and no other key |

## Left out

- The RPC library's internals: the wire format, HTTP status mapping, call-once guards on `next`, splitting a URL into path segments, body decoding, and cache-key derivation. Dispatch is modelled only as "middlewares, then handler" over a typed input.
- Routers.Dispatch: takes an already decoded input. Decoding a request value is `Contracts.DecodeInput`, but when the library validates input relative to the middlewares is library behaviour and is not modelled.
- Routers.Enhance: prepends a builder's middlewares to every procedure without the library's de-duplication of a shared leading list; the only builder used with `.router` carries no middleware, so the two agree here.
- zod beyond the two shapes: unknown-key stripping, coercion and error messages.
- `apps/server/src/lib/context.ts` is not part of this model: `createContext` is a parameter of `Server.ServeRpc`, and the context it returns is an arbitrary record.
- `apps/server/src/lib/auth.ts` (the authentication provider's configuration) and the `/api/auth/**` passthrough: external provider plumbing.
- The Hono logger, `serve`, the port, the `GET /` route, and the CORS options other than `origin` (methods, headers, credentials, max age): fixed configuration handed to the framework, with no decision of the repository's own.
- The typed client proxy, the TanStack query utilities and the `QueryClient` error logger of `apps/native/utils/orpc.ts`: library code and console I/O.
- The web client's hooks and dashboard page, and build configuration: UI and tooling.
- Asynchrony, concurrency and cancellation: every step is a synchronous pure function.
- JavaScript numbers are integers in `JsValues.Value`; NaN and fractions affect no decision here.
- Server.ServeRpc: treats the bare path `/rpc` as inside the middleware's route `/rpc/*`, as Hono's trailing wildcard does; only the segment-level route is modelled, not URL text matching.
- Server.CorsOrigin: takes the Origin header as a string, empty when absent, as the framework supplies it; the header's absence is not a separate input.
