# HttpRouting route descriptor, modelled in Dafny

This project models `HttpRouting`, the route descriptor of a small TypeScript HTTP framework
(`lib/httpRouting.ts`). A route descriptor holds one registered endpoint: its path pattern, the
request methods it answers, its handler, its bound path parameters and its middleware. Callers
configure it through a fluent builder. The builder methods change the descriptor in place and
return it for chaining.

- `wrappers.dfy`: `Option` (JavaScript `null` is `None`) and `Result` (a value, or a thrown error).
- `routing.dfy`, module `Routing`:
  - the `RequestMethod` enumeration and its wire tokens;
  - the `Parameter` and `MiddlewareGroup` payloads and the `DuplicateParameter` error;
  - `WithHead`, the HEAD inference done at construction;
  - `Bind`, the effect of one `WithParameter` call on the bindings, and `Chain`, a builder chain
    of such calls, with lemmas about both;
  - the class `HttpRouting<H, M>`, whose fields the methods update in place. `H` is the handler
    type and `M` the middleware type; both are opaque.

The constructor stores a reference to the caller's method array and appends HEAD to that same
array. The model keeps this aliasing: the caller's array is a `MethodList` object, and the
constructor `modifies` it. No builder method replaces the route's reference to that array, so
the alias survives the whole builder chain. Each state-changing method states the descriptor's
whole new state: the ghost `View()` of every field's value, plus the unchanged array reference. `Valid()` says that parameter names are pairwise distinct. The
constructor establishes it and `WithParameter` preserves it.

Two facts about the code are worth stating plainly:
- The method list is a plain array and is never deduplicated. The HEAD inference never adds a
  second HEAD, but a caller may pass any method more than once.
- `HasParameters` is documented as "Determine if the route has parameters", but it returns true
  when there are none (see Findings).

`UsersShowScenario` replays, from the caller's side, the registration of a `users.show` route.
It shows that the contracts are enough to follow HEAD inference, a successful and a refused
`WithParameter`, `WithName`, a repeated `WithFallback`, and a middleware-group lookup.

## Model

| member | source | states |
|---|---|---|
| `Routing.TokenInjective` | lib/httpRouting.ts:26-35 | `Token` maps each of the eight members to the string value it has in the enumeration (its own name); two methods have the same string value iff they are the same member, so comparing tokens is comparing methods |
| `Routing.RoutingError.Message` | lib/httpRouting.ts:175 | the duplicate-parameter message carries the offending name and it can be read back at a fixed position |
| `Routing.WithHead` | lib/httpRouting.ts:131-136 | the input is a prefix of the result; at most one method is added, and it is HEAD; GET in the result implies HEAD; HEAD is present iff it was present or GET was; without GET, or with HEAD already present, nothing changes; no other method's count changes; HEAD is never duplicated |
| `Routing.WithHeadIdempotent` | lib/httpRouting.ts:131-136 | the inference is a normalisation: applying it twice gives the same result as once |
| `Routing.NothingBoundIffEmpty` | lib/httpRouting.ts:145-147 | a list of bindings binds no name at all exactly when it is empty |
| `Routing.Bind` | lib/httpRouting.ts:173-178 | one WithParameter call fails iff the name is already bound, and the error carries that name; on success it appends exactly the new binding at the end, the bound names become the old ones plus the new name, and distinct names stay distinct |
| `Routing.Chain` | lib/httpRouting.ts:173-179 | a chain of WithParameter calls only adds bindings: the old bindings stay as a prefix, and at most one binding is added per call |
| `Routing.ChainStopsAtFirstDuplicate` | lib/httpRouting.ts:173-179 | a chain keeps, in call order, every binding made before the first refused call; it fails iff it stops early; the error names the refused call, whose name was bound at that point |
| `Routing.ChainPreservesDistinct` | lib/httpRouting.ts:173-178 | any sequence of WithParameter calls keeps parameter names pairwise distinct, whether it ends in an error or not |
| `Routing.ChainSucceedsIff` | lib/httpRouting.ts:173-178 | on a route with distinct names, a chain succeeds iff all the names are distinct from each other and from those already bound; it then retains every binding in call order, and each name is bound |
| `Routing.MethodList.constructor` | lib/httpRouting.ts:126 | the caller's method array holds the methods it was given |
| `Routing.HttpRouting.constructor` | lib/httpRouting.ts:88-136 | the route keeps a reference to the caller's method array, and that array becomes `WithHead` of its old contents; path and action are stored verbatim; the route is not a fallback and is named `<anonymous>`; it has no middleware, groups or parameters; parameter names are distinct and GET implies HEAD |
| `Routing.HttpRouting.HasParameters` | lib/httpRouting.ts:145-147 | as written, true exactly when no parameter name is bound (the inverse of its name) |
| `Routing.HttpRouting.HasAnyParameter` | lib/httpRouting.ts:145-147 | the corrected query: true exactly when some parameter name is bound |
| `Routing.HasParametersInverted` | lib/httpRouting.ts:145-147 | on a route that binds some name, `HasParameters` is false and `HasAnyParameter` is true |
| `Routing.HttpRouting.HasParameter` | lib/httpRouting.ts:156-163 | true iff some binding has exactly the name `key`; changes nothing |
| `Routing.HttpRouting.WithParameter` | lib/httpRouting.ts:173-179 | if the name is unbound, appends exactly `{name, value}`, returns this route and changes nothing else; if it is bound, fails with `DuplicateParameter(name)` and the whole state is unchanged; in both cases the route still shares the caller's method array; distinct parameter names stay distinct |
| `Routing.HttpRouting.WithName` | lib/httpRouting.ts:188-191 | sets the name, returns this route and changes nothing else; the route still shares the caller's method array |
| `Routing.HttpRouting.WithFallback` | lib/httpRouting.ts:199-202 | sets the fallback flag, returns this route and changes nothing else; on a route that is already a fallback it changes nothing (idempotent); the route still shares the caller's method array |
| `Routing.HttpRouting.GetHandler` | lib/httpRouting.ts:210-212 | returns the stored handler, which the constructor set to the action it was given; reads only |
| `Routing.HttpRouting.HasMiddlewareGroups` | lib/httpRouting.ts:221-228 | true iff some middleware group is named exactly `name`; changes nothing |

## Findings

| source | as written | input that shows it | evidently intended | confidence | as-written member | corrected member |
|---|---|---|---|---|---|---|
| lib/httpRouting.ts:145-147 | `HasParameters` returns `parameters.length === 0` | a route with the binding `{id, null}`: `HasParameters()` is false (lemma `Routing.HasParametersInverted`) | true when at least one parameter is bound, as the name and the doc comment ("Determine if the route has parameters") say | medium, not executed | `Routing.HttpRouting.HasParameters` | `Routing.HttpRouting.HasAnyParameter` |

`HasParameters` is kept as written because the source exposes it with that behaviour. Nothing
else in the model depends on either query.

## Left out

- `HttpRequest`, `HttpResponse` and `HttpError` are defined in files that are not part of this model. Handlers and middleware are opaque type parameters. The thrown `HttpError` is the `DuplicateParameter` error value, which carries the parameter name and its message.
- `Middleware.Next` is an untyped continuation that nothing in this file invokes, so there is no behaviour to state. Middleware is only stored (`middleware`, `MiddlewareGroup.handlers`).
- Invoking handlers, running middleware chains, matching paths and dispatching requests happen outside this file. `path` is stored verbatim and never interpreted.
- Method tokens outside the eight enumeration members cannot be represented. At run time, a TypeScript caller could pass any string.
- The fields are public in the source, and the model's fields are public too. A caller that assigns them directly, or that later changes its own method array, can break `Valid()` or `HeadInferred()`. The model states these invariants only for what the constructor and the builder methods do.
- Freezing routes and concurrent use are not modelled; nothing in the source enforces either.
