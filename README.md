# http-session request pipeline, modelled in Dafny

A Dafny model of the `HttpSession` class of `lib/http-session.js`: a session that wraps an HTTP
client, attaches one persistent cookie jar to every request, and runs registered
`beforeRequest` / `afterRequest` hooks around the transport call.

Modules, one per part of the pipeline:

- `Wrappers` (`wrappers.dfy`): `Option` and `Result`; a `Result` is how a JavaScript call that may throw, or a promise that may reject, settles.
- `Cookies` (`cookies.dfy`): the cookie jar wrapper object returned by `request.jar()`. Its store is an opaque `CookieStore` that the model never looks inside.
- `JsValues` (`values.dfy`): JavaScript values, their truthiness (`||`), the string test `typeof url === 'string'`, and what an object contributes to `assign`.
- `Normalization` (`normalize.dfy`): `assign({}, …sources)` as a fold in which later sources win, and `_normalizeOptions` with its three call shapes. The function returns the new options map. It also returns the caller's second argument after the call, because in the URL-string shape the code writes `url` onto the caller's object before copying it.
- `Hooks` (`hooks.dfy`): the append-only hook registry as a map from event name to a list of handlers, and the hook chain runner `_runHooks`. The runner is the `Promise.reduce` fold. Each handler gets the same original arguments, and the accumulator is ignored. The run ends at the first failure and yields the last handler's value. `HookRun.calls` counts the handlers that were called.
- `Session` (`session.dfy`): the `HttpSession` class. It holds the client defaults, the cookie jar and the `hooks` field, which `AddHook` updates with `modifies this`. It also defines the pure `Request` pipeline, the six verb shortcuts, and `Serialize` / `Deserialize`.

Things outside this layer are passed in as function parameters:

- the HTTP client configured with the session defaults (`Transport`);
- the hook callbacks (`Handler`);
- the cookie library's `serializeSync` / `deserializeSync`;
- the fresh store that `request.jar()` creates.

`Request` returns a `RequestRun`. It records the options handed to the transport, or `None` when the transport was never called, together with the result the caller sees.

Facts about the code that shape the model:

- The value returned by the `beforeRequest` chain is discarded. The transport receives the normalised options themselves (lib/http-session.js:66-71). Only the `afterRequest` outcome becomes the result (lib/http-session.js:78).
- The code has no session header overlay: there is no `setHeader` or `unsetHeader`, and `serialize` emits only `cookies` (lib/http-session.js:168-172). The constructor test at test/http-session.test.js:13 expects a `_headers` field, but the constructor (lib/http-session.js:15-20) never creates one.
- Every handler is called with the original arguments, so no handler sees another's result. Only the last handler's return value survives (lib/http-session.js:205-207).
- The module is in strict mode (lib/http-session.js:1). So `options.url = url` on a truthy primitive second argument (a number, `true`, a non-empty string) throws a TypeError, and the model returns `Failure(TypeError(…))` for it. A falsy second argument is replaced by a fresh `{}` first.
- With a string URL, `request` and the verb shortcuts write `url` onto the caller's options object (lib/http-session.js:189, reached from :64 and :89). `RequestRun.caller` records that object after the call, so a later call that reuses it sees the new `url`.

## Model

| member | source | states |
|---|---|---|
| `Cookies.CookieJar.constructor` | lib/http-session.js:18 | the jar wraps the store the cookie library created |
| `Session.HttpSession.constructor` | lib/http-session.js:15-20 | the client defaults are the `defaults` property of the options (`{}` when the options or that property are falsy); the session has its own new cookie jar holding the library's fresh store; the hook registry starts empty |
| `Session.TransportDefaults` | lib/http-session.js:16-17 | the defaults are always truthy: they are the caller's `defaults` property when that is truthy, and `{}` in every other case |
| `Normalization.Normalize` | lib/http-session.js:184-193 | every override key takes the override's value. A non-string first argument gives exactly the keys of that object (none if it is falsy) plus the overrides; non-overridden keys keep the object's values, and the caller's second argument is untouched. A string first argument fails exactly when the second argument is a truthy primitive. Otherwise the keys are `url`, the overrides and the second argument's keys; `url` is the string unless overridden, and the other keys keep the caller's values. The caller's object gains `url` and no other of its keys changes |
| `Normalization.Assign` | lib/http-session.js:191 | `assign` with no sources is the fresh empty object; every key of the last source is in the result with that source's value |
| `Normalization.AssignKeys` | lib/http-session.js:191 | `assign`'s result has a key exactly when some source has it |
| `Normalization.AssignLaterWins` | lib/http-session.js:191 | each key takes its value from the last source that holds it (later sources win) |
| `Normalization.NormalizeSingleOverride` | lib/http-session.js:184-193 | normalising with one override of a key other than `url` fails exactly when normalising with none does; otherwise it gives the same options with that key set, and the same caller object |
| `Normalization.AssignThree` | lib/http-session.js:191 | `assign({}, a, b)` overlays `b` on `a` on a fresh empty object |
| `Hooks.Handlers` | lib/http-session.js:203 | an event's handlers are its registered list, and the empty list for an event that was never registered |
| `Hooks.FirstArg` | lib/http-session.js:204 | the first event argument, `undefined` when there is none |
| `Hooks.AppendHook` | lib/http-session.js:195-198 | the event's list becomes the old list (or `[]`) with the handler added at the end; the event gets a key; every other event's list is unchanged |
| `Hooks.Reduce` | lib/http-session.js:205-207 | at most as many handlers are called as are registered, at least one when any are; a chain that succeeds has called every handler |
| `Hooks.RunHooks` | lib/http-session.js:200-208 | with no handlers it calls none and yields the first event argument (`undefined` if there is none); otherwise it calls between one and all of them, and all of them when it succeeds |
| `Hooks.ReduceAllSucceed` | lib/http-session.js:205-207 | when every handler succeeds on the arguments, all are called in order and the chain yields the last handler's value |
| `Hooks.ReduceFirstFailure` | lib/http-session.js:205-207 | when handler `k` is the first to fail, exactly `k + 1` handlers are called and the chain fails with that handler's error; later handlers cannot affect the outcome |
| `Hooks.ReduceAppend` | lib/http-session.js:195-208 | a handler appended to a chain runs after all the earlier ones and only if they all succeeded, and its result then becomes the chain's result |
| `Hooks.RunHooksAfterAppend` | lib/http-session.js:195-208 | the most recently registered handler is the last one the chain calls, and its result is the chain's result unless an earlier handler failed |
| `Hooks.RunHooksOtherEvent` | lib/http-session.js:195-198 | registering a handler for one event leaves every other event's chain unchanged |
| `Session.HttpSession.AddHook` | lib/http-session.js:195-198 | the registry field becomes the old registry with the handler appended to the event's list, and nothing else of the session changes |
| `Session.HttpSession.BeforeRequest` | lib/http-session.js:152-154 | the callback is appended to the `beforeRequest` list |
| `Session.HttpSession.AfterRequest` | lib/http-session.js:160-162 | the callback is appended to the `afterRequest` list |
| `Session.HttpSession.Prepare` | lib/http-session.js:64 | `request`'s normalisation fails exactly when plain normalisation does; otherwise it gives the same options with `jar` set to the session's jar, and leaves the caller's object the same way |
| `Session.HttpSession.Request` | lib/http-session.js:63-80 | A call the normaliser rejects fails before any hook or the transport runs. The transport is called exactly when normalisation and the `beforeRequest` chain succeed, and the chain's failure is then the result. When the transport is called, its options carry the session's own jar and are exactly the normalised options the `beforeRequest` hooks were given, whatever those hooks returned. A transport error is the result; otherwise it is the outcome of the `afterRequest` chain run on the response and those options. The caller's object is left as normalisation leaves it: with a string URL it gains `url`; it is unchanged when normalisation fails |
| `Session.HttpSession.NoHooksRequestIsTransport` | lib/http-session.js:63-80 | when neither event has handlers, as on a new session, a request sends the normalised options and yields exactly the transport's response or error |
| `Session.HttpSession.Shortcut` | lib/http-session.js:88-146 | a verb shortcut's outgoing options have `method` equal to the verb whatever the caller supplied, carry the session jar, and have `url` equal to a string URL argument; with a string URL the caller's object gains `url` and nothing else, and with any other first argument it is unchanged; a rejected call fails before any hook runs; otherwise it is `request` on the normalised options |
| `Session.HttpSession.Get` | lib/http-session.js:88-91 | the options sent have `method` `GET` and the session jar |
| `Session.HttpSession.Post` | lib/http-session.js:99-102 | the options sent have `method` `POST` and the session jar |
| `Session.HttpSession.Put` | lib/http-session.js:110-113 | the options sent have `method` `PUT` and the session jar |
| `Session.HttpSession.Delete` | lib/http-session.js:121-124 | the options sent have `method` `DELETE` and the session jar |
| `Session.HttpSession.Patch` | lib/http-session.js:132-135 | the options sent have `method` `PATCH` and the session jar |
| `Session.HttpSession.Head` | lib/http-session.js:143-146 | the options sent have `method` `HEAD` and the session jar |
| `Session.HttpSession.Serialize` | lib/http-session.js:168-172 | the state is a plain object whose only property is `cookies`, holding the cookie library's serialization of the current store |
| `Session.HttpSession.Deserialize` | lib/http-session.js:178-182 | the store becomes what the cookie library rebuilds from the `cookies` property of the state (of `{}` when the state is falsy); if the library throws, that error is returned and the store is kept |

## Left out

- The HTTP client (`request`, `request.defaults`, lib/http-session.js:7, 17, 71) is a foreign network library. The model passes it in as a function from the session defaults and the call's options to a response or an error. How the defaults merge into each call and which method the client assumes by default belong to that library.
- Cookie storage and matching (`request.jar()`, `serializeSync`, `deserializeSync`) belong to the cookie library. The store is an opaque `CookieStore`, and the library's calls are parameters. So no serialize/deserialize round trip is claimed, and the cookies the transport absorbs into the jar are not modelled.
- Promises and asynchrony (`Promise.bind`, `Promise.reduce`) are left out. Handlers and the transport are sequential functions that settle to a value or an error. A handler's synchronous throw and its rejected promise are the same `Failure`.
- Session.HttpSession.Request: handlers are pure functions of their arguments. The source lets `beforeRequest` hooks change the options object in place (lib/http-session.js:213-216), and hooks can also use the session bound as `this`; neither is modelled. So the guarantee that the transport gets the session's jar, in exactly the normalised options, holds only for hooks that do not change those options; a hook that overwrote or removed `jar` would defeat it in the source.
- Session.HttpSession.Request: a call the normaliser rejects throws synchronously in the source (lib/http-session.js:64, 89, 100, 111, 122, 133, 144), before any promise exists. The model's `RequestRun(None, …, Failure(e))` does not tell that apart from a rejected promise.
- Object identity is not modelled: options are values. That `_normalizeOptions` returns a new object, and that `clone` deep-copies in `serialize` / `deserialize`, follow from value semantics and are not separate claims.
- `Normalization.Normalize`: as an `assign` source, and as the target of `options.url = url`, only plain objects are tracked. Array index keys and the jar wrapper's own fields are not copied. A `url` written onto an array second argument is not recorded in the caller's value.
- `JsValues.Value`: numbers are integers (no floating point or `NaN`), and functions as option values are not represented.
- `HttpSession.extend` (class-extend subclassing, lib/http-session.js:53) is prototype machinery. So is the dynamic dispatch of `this.request` inside the verb shortcuts, which a subclass could override.
- test/mock.js is HTTP mocking for the tests and has no counterpart here.
