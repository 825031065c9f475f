# Authentication gate with redirect and response-header side channel

This project models Kibana's security plugin `authenticateFactory`
(`x-pack/legacy/plugins/security/server/lib/auth_redirect.js`). The factory
builds the hapi `authenticate` function that decides each request, plus an
`onPreResponse` hook. For each request, `authenticate` does these steps:

- If licensing information is available and the security feature is
  disabled, it lets the request through with empty credentials.
- Otherwise it awaits the security plugin's `authenticate(request)`.
- If that call throws, it logs the error with the tags
  `['error', 'authentication']` and returns `wrapError(err)`.
- If the result carries `authResponseHeaders`, it stores them for the
  request in a side table.
- It then picks exactly one decision, in this order: `succeeded` gives
  `Authenticated(user)`; `redirected` gives a redirect with takeover;
  `failed` logs with the tags `['info', 'authentication']` and gives
  `wrapError(error)`; anything else gives `Boom.unauthorized()`.

The `onPreResponse` hook looks up the headers stored for the request. When
there are some, it merges them into the outgoing response, and the auth
values win on a name clash. For a Boom error the hook replaces
`output.headers` with the spread of old and auth headers. For a normal
response it calls `response.header(name, value)` for each entry in turn. It
always returns `h.continue`.

Files:

- `wrappers.dfy`: `Option`.
- `headers.dfy`, module `Headers`: header entries, the sequential overwrite
  `Overlay`, the object-as-map `EntriesMap`, and the `Response` class. Its
  lemmas prove that setting entries one by one equals spreading the header
  object, and that each entry ends up with its own value.
- `auth_redirect.dfy`, module `AuthRedirect`: the inputs, the `Decision`
  and the log entries. It holds the specification functions `Decide`,
  `LogFor`, `Remember` and `Finalized`. The class `Server` stands for the
  collaborators: licensing info, the security plugin's `authenticate`, which
  records each call, and `server.log`. The class `Gate` is the factory's
  closure. Its `Authenticate` and `OnPreResponse` methods are proved against
  those functions.

The licensing state and the result of the authenticate call are inputs. The
call is a fixed function of the request held by `Server`, so the model can
state whether it was called at all. `AuthenticationResult` keeps
`succeeded`, `redirected` and `failed` as three independent flags. The
source asks the three predicates one after another, so the model makes the
priority order explicit. `ResultOf` builds the results that have at most
one flag, one per outcome.

An `authResponseHeaders` value is a sequence of name/value entries in
`Object.entries` order. The model allows two entries with the same name,
which a JavaScript object cannot have. When names repeat, the last entry
wins, both for the one-by-one `response.header` calls and for the spread.
The lemmas that give every entry its own value assume distinct names.

Notes on the code's behaviour:

- The table entry is never deleted. After finalization it stays until the
  weak map lets go of the request, and a later lookup would still find it.
- A rejection is one of two distinct values: `wrapError(...)` or
  `Boom.unauthorized()`.
- The "not handled" case is simply "none of the three predicates holds".

## Model

| member | source | states |
|---|---|---|
| `AuthRedirect.Decide` | x-pack/legacy/plugins/security/server/lib/auth_redirect.js:41-86 | Disabled security (info available, feature off) gives `Authenticated` with empty credentials whatever the call did; unavailable info falls through. Each decision kind holds exactly when its branch condition holds in priority order (succeeded, then redirected, then failed, else unauthorized; a throw gives a wrapped error). Each decision carries the user, redirect URL or error of the branch that produced it. |
| `AuthRedirect.LogFor` | x-pack/legacy/plugins/security/server/lib/auth_redirect.js:50-83 | At most one log entry, and one exactly when the decision is a wrapped error. A throw logs the error object under `['error','authentication']`. A failure logs `Authentication attempt failed: ` plus the error's message under `['info','authentication']`. Success, redirect and the fallback log nothing. |
| `AuthRedirect.Remember` | x-pack/legacy/plugins/security/server/lib/auth_redirect.js:57-61 | The result's headers are stored under the request before any branching, replacing an earlier entry. No other request's entry changes. The table is unchanged when security is disabled, when the call threw, or when the result has no headers. |
| `AuthRedirect.Finalized` | x-pack/legacy/plugins/security/server/lib/auth_redirect.js:22-39 | No stored headers: the response headers are unchanged. Otherwise the result is the old headers overlaid with the stored ones, the same for a Boom error and for a normal response. |
| `AuthRedirect.HeadersReachResponse` | x-pack/legacy/plugins/security/server/lib/auth_redirect.js:24-35 | When the call returned headers, the finalized response has each of them with its own value, whatever the decision was and whether the response is a Boom error. Headers the auth object does not name keep their old values. |
| `AuthRedirect.OtherRequestsUntouched` | x-pack/legacy/plugins/security/server/lib/auth_redirect.js:21-23 | Deciding one request never changes the headers another request's response receives. |
| `AuthRedirect.OutcomeDecision` | x-pack/legacy/plugins/security/server/lib/auth_redirect.js:63-85 | With security not disabled, a result standing for one outcome gets that outcome's decision: succeeded is authenticated with the user, redirected is a redirect to its URL, failed is the wrapped error, not handled is unauthorized. Only the failure is logged. |
| `AuthRedirect.ResultOf` | x-pack/legacy/plugins/security/server/lib/auth_redirect.js:63-76 | Encodes each of the four outcomes as a result with at most one of `succeeded()`, `redirected()` and `failed()` true: the outcome's own predicate, or none for "not handled". The given headers are kept. The source reads this encoding at these lines. |
| `AuthRedirect.Server.Authenticate` | x-pack/legacy/plugins/security/server/lib/auth_redirect.js:51 | Returns the collaborator's attempt for the request and records one call for it. |
| `AuthRedirect.Server.Log` | x-pack/legacy/plugins/security/server/lib/auth_redirect.js:53 | Appends exactly one entry with the given tags and data. |
| `AuthRedirect.Gate.constructor` | x-pack/legacy/plugins/security/server/lib/auth_redirect.js:17-21 | The factory starts with an empty header table over the given server. |
| `AuthRedirect.Gate.Authenticate` | x-pack/legacy/plugins/security/server/lib/auth_redirect.js:41-86 | The decision is `Decide`. The security plugin is called once for the request exactly when security is not disabled, and never otherwise. The log grows by `LogFor`. The table becomes `Remember` of the old table. |
| `AuthRedirect.Gate.OnPreResponse` | x-pack/legacy/plugins/security/server/lib/auth_redirect.js:22-39 | The response's header collection becomes `Finalized` of its old value: unchanged without stored headers, otherwise old headers overlaid with the auth headers. The for-loop keeps "the first k entries are set, the rest as before". The hook always returns `Continue`. |
| `Headers.Overlay` | x-pack/legacy/plugins/security/server/lib/auth_redirect.js:32-34 | Setting entries in turn yields the old names plus the entry names. Names not set keep their old values, and the last entry's name holds its value. |
| `Headers.EntriesMap` | x-pack/legacy/plugins/security/server/lib/auth_redirect.js:27-30 | The spread header object has exactly the entry names as keys. |
| `Headers.OverlayIsSpread` | x-pack/legacy/plugins/security/server/lib/auth_redirect.js:26-35 | The normal-response loop of `response.header` calls gives the same headers as the Boom spread `{...old, ...auth}`. |
| `Headers.OverlaySetsEveryEntry` | x-pack/legacy/plugins/security/server/lib/auth_redirect.js:32-34 | With distinct names, as in an object, every entry is set on the response with its own value, whatever its position. |
| `Headers.Response.SetHeader` | x-pack/legacy/plugins/security/server/lib/auth_redirect.js:33 | `response.header(name, value)` overwrites that one name and changes nothing else. |

## Left out

- The hapi toolkit and hook registration (`h.authenticated`, `h.redirect().takeover()`, `h.continue`, `server.ext`) are not modelled as framework behaviour. They become `Decision` constructors, the single-value `HookResult`, and a plain `OnPreResponse` method.
- `async`/`await` and concurrent requests are not modelled. One request is decided at a time, and the authenticate call's outcome or exception is a value the `Server` supplies for each request.
- The weak map's garbage collection is not modelled, because reclaiming memory cannot be stated here. The table is an ordinary map keyed by an integer request identity.
- The internals of `Boom`, `wrapError` and `Boom.unauthorized` (in `./errors` and the `boom` package) are not part of this model. They are opaque `Decision` values, and `Boom.isBoom` is a flag on the response.
- Licensing internals are not modelled; `xpack_main.info` is two booleans. `feature('security').isEnabled()` is only read when the info is available. It has no effect, so reading both booleans is equivalent.
- `server.log` formatting is not modelled; the log is the recorded (tags, data) sequence.
- The `AuthenticationResult` class is not part of this model; a result is a record of its three predicates and its fields.
- `Headers.Response.SetHeader`: hapi's case-insensitive header names and its append option are not modelled; setting a header is a plain overwrite by name.
- Header values are strings; hapi also accepts arrays and numbers.
