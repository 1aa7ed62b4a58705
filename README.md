# AxiCrud in Dafny

A model of `AxiCrud<T>`, a small generic helper over a pre-configured axios HTTP client. It offers
five operations on one REST resource: `withList`, `withItem`, `create`, `update` and `delete`. It
also builds item paths and dispatches the per-call and instance-level `onFail` / `finally` hooks.

The project has five modules, one file each:

- `Wrappers` (`wrappers.dfy`): `Option`, which stands for a JavaScript value that may be `undefined`.
- `Paths` (`paths.dfy`): the string form of an id, `itemPath`, and the PUT target of `update`. These are pure functions with lemmas.
- `Hooks` (`hooks.dfy`): the config shapes and the rule by which `errorHandle` and `finally` pick at most one handler. These are pure functions with lemmas.
- `Flow` (`flow.dfy`): each operation's `.then(success).catch(errorHandle).then(finally)` chain. It is a function from the request's outcome, the call config and the instance config to the sequence of events the chain produces: the success callback, onFail and finally. Lemmas cover the order of the events, failed and successful requests, `cbWithModel`, and the default config.
- `Crud` (`crud.dfy`): the class `AxiCrud<T>` with its `url` and mutable `config` fields. Its methods run the chain step by step and append to a `trace` field. Each method is proved to append exactly its request followed by the matching `Flow` trace.

The HTTP client is a parameter. Every operation takes an `outcome` argument, which is either
`Ok(response)` or `Err(error)`. The request the operation would send is recorded as the first
event of its block.

A success callback is a value `Callback(name, raises)`. The `raises` field says whether invoking
it throws, and with what error.

### Behaviour of the code worth knowing

- `itemPath` does not always avoid a double slash. When the url ends with `/` and the id starts with `/`, the result holds `//` (src/index.ts:56-59). `Paths.ItemPathSeam` proves both directions: the result is the one-slash join exactly when the two sides do not both carry a slash, and otherwise it holds `//` at the seam.
- `create` or `update` called with no config object does not fall back to the response callback. The code reads `config.cbWithModel` on `undefined` (src/index.ts:122, 154). That TypeError is thrown inside the success `.then`. The `.catch` then passes it to `errorHandle` with no call config, so only the instance-level `onFail` can see it, and the callback is never called. The model keeps this behaviour (`Flow.ModelSuccess`, `Flow.MissingModelConfig`).

## Model

| member | source | states |
|---|---|---|
| `Paths.Decimal` | src/index.ts:55 | `toString()` of a natural number is non-empty, digits only, and has no leading zero unless the number is 0 |
| `Paths.DecimalRoundTrip` | src/index.ts:55 | parsing the decimal rendering gives the number back, so the rendering loses nothing |
| `Paths.IdString` | src/index.ts:55 | a string id is used unchanged; a numeric id's string form is non-empty and never starts with `/`. A non-negative id gives its canonical decimal digits, with no leading zero unless it is 0, and they parse back to the id. A negative id gives `-` followed by the canonical digits of its magnitude |
| `Paths.ItemPath` | src/index.ts:54-60 | the item path starts with the url, ends with the id's string form, and is 0 or 1 characters longer than url + id |
| `Paths.ItemPathCases` | src/index.ts:56-59 | a `/` is inserted if and only if the url does not end with `/` and the id does not start with `/`; otherwise the result is exactly url + id |
| `Paths.NumericItemPath` | src/index.ts:55-59 | for a numeric id the separator depends only on whether the url ends with `/` |
| `Paths.ItemPathSeam` | src/index.ts:56-59 | the item path equals the reference one-slash join if and only if url and id do not both carry a slash at the seam; if they do, the path holds `//` there |
| `Paths.UpdatePath` | src/index.ts:152 | the PUT target of `update`: the item path followed by one `/` |
| `Paths.UpdatePathShape` | src/index.ts:152 | the PUT target of `update` always ends with `/`, starts with the url, and holds the id just before that final `/`, whatever the url's own trailing slash |
| `Hooks.DefaultConfig` | src/index.ts:27-29 | the empty instance config, `{}`: it offers neither an onFail nor a finally handler |
| `Hooks.Select` | src/index.ts:31-49 | the call-level handler is chosen when the call config has one; otherwise the instance-level one; nothing is chosen if and only if neither config offers that hook |
| `Hooks.SelectIsFirstPresent` | src/index.ts:31-49 | the selection equals the first present entry of the precedence list [call-level, instance-level] |
| `Hooks.CallLevelOverrides` | src/index.ts:32-33 | a call-level handler is chosen whatever the instance config holds; the configs are never merged |
| `Hooks.DefaultConfigSelectsNothing` | src/index.ts:24-29 | with the empty instance config installed by the constructor and no call-level handler, no handler is selected |
| `Flow.FailEvents` | src/index.ts:31-39 | what `errorHandle(error, config)` runs: the handler `Hooks.Select` picks for onFail, given the error, or nothing |
| `Flow.FinallyEvents` | src/index.ts:41-49 | what `finally(config)` runs: the handler `Hooks.Select` picks for finally, or nothing |
| `Flow.Settle` | src/index.ts:75-80 | the tail `.catch(errorHandle).then(finally)`: the first step's events, then errorHandle on the error it rejected with (if any), then finally |
| `Flow.ListTrace` | src/index.ts:72-80 | the `withList` chain: the callback with the list response on success, an errorHandle of the request error on failure, then finally |
| `Flow.ItemTrace` | src/index.ts:95-103 | the `withItem` and `delete` chain (the two are identical, lines 95-103 and 180-188): the callback with the item response on success, an errorHandle of the request error on failure, then finally |
| `Flow.ModelSuccess` | src/index.ts:153-159 | the success step of `update`, and of `create` once a callback is present (lines 122-126): reading `cbWithModel` on a missing config throws; `true` passes the model; anything else passes the response |
| `Flow.CreateTrace` | src/index.ts:118-134 | the `create` chain: with a callback, `ModelSuccess` on success; without one, nothing; the request error on failure; then errorHandle and finally with the config's hooks |
| `Flow.UpdateTrace` | src/index.ts:151-165 | the `update` chain: `ModelSuccess` on success, the request error on failure, then errorHandle and finally with the config's hooks |
| `Flow.SettleOrdered` | src/index.ts:72-80 | a request followed by any settled chain is in chain order: at most one callback, then at most one onFail, then at most one finally; finally is last exactly when a finally handler is selected, and absent otherwise |
| `Flow.ListTraceOrdered` | src/index.ts:72-80 | the `withList` block, headed by its GET, is in chain order, and finally, when selected, runs exactly once and last |
| `Flow.ItemTraceOrdered` | src/index.ts:95-103 | the `withItem` and `delete` blocks, headed by their request, are in chain order, and finally, when selected, runs exactly once and last |
| `Flow.CreateTraceOrdered` | src/index.ts:118-134 | the `create` block, headed by its POST, is in chain order, and finally, when selected, runs exactly once and last |
| `Flow.UpdateTraceOrdered` | src/index.ts:151-165 | the `update` block, headed by its PUT, is in chain order, and finally, when selected, runs exactly once and last |
| `Flow.FailedRequest` | src/index.ts:72-80 | on a failed request no success callback runs, and `cbWithModel` is not read; the events are the selected onFail given the unchanged error, then the selected finally, for all five operations |
| `Flow.SucceededRequest` | src/index.ts:95-103 | on a successful GET or DELETE the callback runs first, exactly once, with the response; if it throws, its error goes through errorHandle before finally; otherwise no onFail runs |
| `Flow.ModelCallbacks` | src/index.ts:120-165 | `create`/`update` succeeding with a config object: the callback runs exactly once, first, with the submitted model when `cbWithModel` is true and the response otherwise; no onFail runs unless the callback throws, and then its error goes to errorHandle with the call's config; finally follows. `create` without a callback fires only finally |
| `Flow.MissingModelConfig` | src/index.ts:120-165 | `create`/`update` succeeding with no config object: the TypeError from reading `cbWithModel` replaces the callback and reaches only the instance-level onFail, then the instance-level finally runs; in `create` only when a callback was given |
| `Flow.SilentByDefault` | src/index.ts:75-80 | with the default instance config and no call-level hooks, a failed request runs no handler at all and nothing is re-raised, for all five operations |
| `Crud.AxiCrud.constructor` | src/index.ts:21-25 | keeps the url and the given instance config, or installs the empty default config when none is given |
| `Crud.AxiCrud.ErrorHandle` | src/index.ts:31-39 | appends exactly the selected onFail handler with the error, or nothing |
| `Crud.AxiCrud.Finally` | src/index.ts:41-49 | appends exactly the selected finally handler, or nothing |
| `Crud.AxiCrud.Send` | src/index.ts:73 | records the request handed to the HTTP client |
| `Crud.AxiCrud.RunCallback` | src/index.ts:74 | records the callback with its argument and returns what it throws |
| `Crud.AxiCrud.RespondWithModel` | src/index.ts:153-159 | runs the `cbWithModel` branch of create/update, or throws the TypeError when there is no config object |
| `Crud.AxiCrud.WithList` | src/index.ts:68-81 | appends the GET of the base url and then exactly the `withList` chain's events |
| `Crud.AxiCrud.WithItem` | src/index.ts:90-104 | appends the GET of the item path and then exactly the `withItem` chain's events |
| `Crud.AxiCrud.Create` | src/index.ts:113-135 | appends the POST of the model to the base url and then exactly the `create` chain's events |
| `Crud.AxiCrud.Update` | src/index.ts:145-166 | appends the PUT of the model to item path + `/` and then exactly the `update` chain's events |
| `Crud.AxiCrud.Delete` | src/index.ts:175-189 | appends the DELETE of the item path and then exactly the `delete` chain's events |

## Left out

- The axios instance (`axI`) and its `get`/`post`/`put`/`delete` calls: they are a foreign library doing network I/O. Each operation takes the settled outcome as a parameter, and only the verb, path and body of the request are recorded.
- Promise scheduling and asynchrony: each operation's chain is modelled as one block of events in chain order, run to completion when the operation is called. Two calls in a row send both requests before either chain's callbacks run; that interleaving is not captured. Neither is any change between a call and its settlement to the configs the chain reads: a reassignment of the public `config` field, or a change to the fields of the call-level or instance config objects (`onFail`, `finally`, and for `create`/`update` `cbWithModel`). The code reads all of them when the chain settles (src/index.ts:31-49, 122, 154); the model reads them at call time.
- Asynchronous success callbacks: callbacks are modelled as synchronous, throwing or returning at once, and all five operations treat them alike. The code does not. `withList`, `withItem` and `delete` return the callback's value from the success step (src/index.ts:74, 97, 182), so a promise the callback returns is awaited and its rejection reaches `errorHandle` before `finally`. `create` and `update` use a block body that discards that value (src/index.ts:120-128, 153-159), so such a rejection escapes the chain unhandled and `finally` does not wait for it.
- A throwing `onFail` or `finally` handler: the rejection would escape the chain as an unhandled rejection, which is host-runtime behaviour. Handlers are modelled as never throwing.
- Success callbacks whose throwing depends on their argument: a callback either always throws one fixed error or never throws.
- Non-integer numeric ids: their `toString()` needs floating-point formatting. Ids are strings or integers.
- Paths.IdString: numeric ids are limited to integers of magnitude at most 2^53 (`Paths.PlainInt`). In that range every integer is exactly a JavaScript number, and `toString()` writes its exact decimal. Above 2^53, `toString()` writes the shortest digits that read back to the same double, padded with zeros: `2**60` gives `1152921504606847000`, not the exact `1152921504606846976`. From 10^21 on it switches to exponential form (`1e+21`). Neither rendering is modelled.
- JavaScript truthiness beyond the declared types: `cbWithModel` is `undefined`, `true` or `false`, and only `true` selects the model. Configs hold handlers or `undefined`.
- TypeScript generics are an opaque type parameter `T`. Responses carry a status and a `data` value.
- tests/index.test.ts is not part of this model. It runs against a mocked client.
