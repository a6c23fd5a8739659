# Orca lookup integration, modelled in Dafny

This project models the lookup module `integration.js` of the Orca
threat-intelligence integration. The module takes a batch of entities
(IPv4 addresses, domains, CVE identifiers) and the user's options. It first
gets a session token, using a token cache that keeps tokens for 590
seconds. It then builds one query per entity it can classify and runs the
queries against the Orca API. It turns each HTTP status into a task result
and returns one `{entity, data}` entry per task. It also validates the
user's options.

Modules follow the stages of the module:

- `JsValues` (values.dfy): the JavaScript values the code inspects: JSON
  bodies, tokens and option values. It defines truthiness, property reads
  that throw on `null`/`undefined`, lodash `_.isEmpty`, `_isMiss`,
  `String(v)` and `endsWith`.
- `Outcomes` (outcomes.dfy): `Option`, and `MapAll`, an all-or-nothing map.
  It models both the batch run and the result fold, where one failing
  element aborts the whole list.
- `Transport` (transport.dfy): the response of one HTTP exchange, either a
  transport error or a status and a body.
- `TokenCaching` (token_cache.dfy): the node-cache instance, as a class with
  a `map` field and an explicit clock `now` in milliseconds.
- `Authentication` (authentication.dfy): `getAuthToken`. The cache is read
  at the call instant `now`, and the response handler writes it at a second
  instant `replyAt`, when the session endpoint has answered.
- `LookupRequests` (requests.dfy): URL normalisation, the ignored-IP filter,
  classification and request building.
- `LookupResponses` (responses.dfy): the status handler of each task and the
  batch run.
- `ResultAssembly` (assembly.dfy): the fold of task results into entries.
- `Lookup` (lookup.dfy): `doLookup`, which composes the stages.
- `OptionValidation` (validation.dfy): `validateOptions` and its helpers,
  which append to a shared error list (a class with a `seq` field).

The HTTP endpoints are parameters: `authServer` answers the session POST,
and `server` answers each lookup GET. Each is a total function from request
to response. An uncaught TypeError is an explicit outcome, `Threw` (or
`None` in `EntryFor`): in the source the callback is then never called. It
is not a precondition.

In these points the code behaves differently from what a reader of the
integration might expect, and the model follows the code:

- Named HTTP errors (403, 429, 401, server error) do not abort the batch.
  The handler assigns them to a local variable and calls `done(null, {})`.
  The `{}` result then makes `result.body.data` throw during assembly, so
  the lookup never reports anything (`SwallowedStatusThrows`).
- The server-error test `Math.round(s/10)*10 === 500` holds for 495 to 504,
  not for 500 to 599 (`ServerErrorRange`). Statuses 505 to 599 are unlisted.
- Ignored IPs and unclassifiable entities produce no entry at all, rather
  than an entry with `data: null` (`ResultsFollowTasks`).
- The ignore test uses the `isIP` flag, not the IPv4 classification.
- A hit's `details` is the whole body, and "empty" is `_isMiss` or
  `_.isEmpty` of `body.data` (`EntryData`).
- A fresh authentication returns `jwt.access`, but the cache stores
  `access_token`, so the next call returns that instead
  (`FreshAndCachedTokensDiffer`).

## Model

| member | source | states |
|---|---|---|
| `JsValues.MissIsEmpty` | integration.js:225-227 | every value `_isMiss` accepts is empty for `_.isEmpty`, so the assembly test reduces to `_.isEmpty(body.data)`; the non-empty values are exactly non-empty strings, arrays and objects |
| `JsValues.NatToString` | integration.js:112 | the decimal text of a number concatenated after `Bearer `: digits only, no leading zero, denoting the number |
| `TokenCaching.SetThenGet` | integration.js:17-19 | a value set at `now` is read back during the next 590 000 ms and is gone after |
| `TokenCaching.GetIsInvisible` | integration.js:57 | a read (which deletes an expired entry) changes what no other read at that instant sees |
| `TokenCaching.TokenCache.constructor` | integration.js:17-19 | the cache starts empty |
| `TokenCaching.TokenCache.Get` | integration.js:57 | returns the alive value or `undefined`; an expired entry read is deleted |
| `TokenCaching.TokenCache.Set` | integration.js:80 | stores the value with expiry 590 s after the instant `set` runs; other keys read as before |
| `Authentication.GetAuthToken` | integration.js:55-87 | outcome, requests sent and new cache entries equal `Authenticate` on the old entries, with the cache read at the call instant and written at the reply instant |
| `Authentication.CacheHitSendsNothing` | integration.js:56-58 | a request is sent exactly when the cached value for `url + securityToken` is not truthy; a hit returns it and leaves the cache unchanged |
| `Authentication.FreshTokenStoredAndReturned` | integration.js:77-84 | on 200 the cache holds `access_token` until 590 s after the reply, the caller gets `jwt.access`, and every other key's entry is unchanged |
| `Authentication.StoreThenThrow` | integration.js:77-84 | a 200 with `access_token` but no `jwt` stores the token and then throws, so the caller gets no answer, yet a truthy stored token makes the next call within 590 s of the reply a cache hit |
| `Authentication.FailureKeepsCache` | integration.js:72-80 | the call fails exactly on a transport error or a status other than 200, and then every cache read answers as before; the cache is written only after a 200 |
| `Authentication.OneAuthenticationPerTtl` | integration.js:55-84 | after a successful authentication, every call starting within 590 s of the reply sends nothing and returns `access_token`; the first call after that sends one request |
| `Authentication.WindowStartsAtReply` | integration.js:57-80 | after a reply that took 2 ms, a call 590 001 ms after the first one started is still a cache hit |
| `Authentication.FreshAndCachedTokensDiffer` | integration.js:57-84 | a fresh call returns `jwt.access` ("J") and the next call, a cache hit, returns `access_token` ("A") |
| `Authentication.CacheKeyCollides` | integration.js:56 | two different (url, token) pairs share one cache key |
| `LookupRequests.NormalizeUrl` | integration.js:92 | a URL ending in `/` is the result plus one `/`; any other URL is unchanged |
| `LookupRequests.NormalizeStripsOnlyOne` | integration.js:92 | a URL ending in `//` keeps a final `/`; `"x//"` becomes `"x/"`, and normalising that again gives `"x"` |
| `LookupRequests.PassesFilter` | integration.js:107 | an entity is dropped exactly when `isIP` holds and its value is in `IGNORED_IPS` |
| `LookupRequests.RequestExistsIff` | integration.js:106-135 | an entity gets a request unless it is an ignored IP or is not IPv4, not a domain and not of type `cve` |
| `LookupRequests.IpRequest` | integration.js:118-122 | an IPv4 entity queries `{url}/query/assets` with the literal public/private IP filter around its value and `Bearer` plus the token |
| `LookupRequests.DomainRequest` | integration.js:123-127 | a non-IPv4 domain queries `{url}/query/assets` with the literal public/private DNS filter |
| `LookupRequests.CveRequest` | integration.js:128-132 | a remaining `cve` entity queries `{url}/query/cves` with the literal `cve_id` filter |
| `LookupRequests.BuildTasks` | integration.js:106-139 | the pushed tasks equal `Plan` of the entities |
| `LookupRequests.PlanConcat` | integration.js:106-139 | the tasks of joined entity lists are the joined task lists, so tasks keep entity order |
| `LookupRequests.PlanBounded` | integration.js:106-135 | there are at most as many tasks as entities |
| `LookupRequests.PlanSound` | integration.js:106-139 | every task is the request of an entity of the batch that passed the filter, and all carry the same `Bearer` header |
| `LookupRequests.PlanComplete` | integration.js:106-139 | every entity that has a request has it among the tasks |
| `LookupRequests.IgnoredIpNeverQueried` | integration.js:107 | an ignored IP entity is the entity of no task |
| `LookupResponses.ServerErrorRange` | integration.js:179 | `Math.round(s/10)*10 === 500` holds exactly for 495 ≤ s ≤ 504 |
| `LookupResponses.StatusMapping` | integration.js:148-186 | 200 gives `{entity, body}`, 404 and 202 give `{entity, body: null}`, every other status gives `{}` |
| `LookupResponses.MissesIndistinguishable` | integration.js:152-161 | a 404 and a 202 give the same task result whatever their bodies |
| `LookupResponses.NamedErrorsSwallowed` | integration.js:162-186 | the named errors are exactly 403, 429, 401 and 495 to 504; these and every other status except 200, 404 and 202 complete the task with `{}` and no error; 505 and 599 are unlisted |
| `LookupResponses.ExecuteOutcome` | integration.js:139-195 | the batch fails exactly when some request meets a transport error, and otherwise holds one result per task, in task order |
| `LookupResponses.RunTasks` | integration.js:139-195 | the batch run equals `Execute` on the tasks |
| `ResultAssembly.EntryData` | integration.js:198-217 | a result throws exactly when it is `{}` or its body is undefined; otherwise `data` is null exactly when the body is null or `body.data` is empty, and otherwise `{summary: [], details: body}` with the whole body |
| `ResultAssembly.AssemblyOutcome` | integration.js:198-217 | the fold throws exactly when one result throws, and otherwise gives one entry per result, in order |
| `ResultAssembly.Assemble` | integration.js:198-217 | the pushed entries equal `Assembly` of the results |
| `Lookup.DoLookup` | integration.js:89-223 | after normalising the URL, the cache, the session requests and the outcome follow `Authenticate`; at most one session request is made for the whole batch, none exactly on a cache hit; an auth failure reports the auth error with no lookup, and a token leads to `Plan`'s requests and `AfterAuth`'s outcome |
| `Lookup.ExecuteEntities` | integration.js:139-186 | a successful batch has one result per task, and each `{entity, body}` result carries its task's entity |
| `Lookup.AssemblyEntities` | integration.js:198-217 | a successful assembly has one entry per result, each result was `{entity, body}`, and each entry carries its entity |
| `Lookup.ResultsFollowTasks` | integration.js:106-217 | entries correspond one to one and in order to the tasks, so there are at most as many as entities, and only entities that have a request appear |
| `Lookup.TransportErrorFailsBatch` | integration.js:141-195 | the lookup reports the batch error exactly when some request meets a transport error |
| `Lookup.SwallowedStatusThrows` | integration.js:148-203 | with no transport error, one task answered with a status other than 200, 404 or 202 (a 429, say) makes the lookup throw instead of reporting the named error |
| `Lookup.ScenarioBatch` | integration.js:106-186 | in the scenario the asset query yields the asset body and the CVE query a null body |
| `Lookup.EndToEndScenario` | integration.js:89-221 | an IPv4 entity answered 200 with one asset and a CVE answered 404 give `[{ip, {summary: [], details: body}}, {cve, null}]` |
| `OptionValidation.ErrorList.Push` | integration.js:235 | appends one error at the end |
| `OptionValidation.ValidateUrlOption` | integration.js:241-247 | throws exactly when the url option is missing or truthy and not a string; otherwise it appends the `//` error exactly when the url is a string ending in `//` |
| `OptionValidation.ValidateStringOption` | integration.js:229-239 | throws exactly when the option is missing; otherwise it appends `{key, message}` exactly when the value is not a non-empty string |
| `OptionValidation.ValidateOptions` | integration.js:249-261 | the result equals `ExpectedValidation` of the options |
| `OptionValidation.ValidationErrors` | integration.js:229-261 | each error appears exactly when its rule is violated, in strict order (double slash, URL, token); the list is empty exactly when the URL is a non-empty string not ending in `//` and the token a non-empty string |
| `OptionValidation.StringUrlAtMostOneUrlError` | integration.js:241-253 | a string URL never gets both URL errors |
| `OptionValidation.ValidationExamples` | integration.js:249-261 | `{url: "https://x.com", securityToken: "abc"}` gives `[]`, `{url: "https://x.com//", securityToken: ""}` gives the `//` and token errors, and a numeric URL throws |

## Left out

- `startup` (integration.js:27-53) reads certificate files and configures request defaults. It is file I/O and pass-through configuration.
- components/block.js is the UI component. It is not part of this model.
- The HTTP transport is replaced by the `authServer` and `server` parameters. Logger calls are not modelled. The `detail` strings of the wrapper errors and of the named errors are not modelled; only the error names are kept (`ErrorName`).
- The `GET` method, the `Content-Type` header and `json: true` are the same for every request, so they are not modelled.
- `async.parallelLimit` and `MAX_PARALLEL_LOOKUPS` (integration.js:12, integration.js:191): the cap of 10 concurrent requests is a guarantee of the library, so concurrency is not modelled. Tasks run one after another, and results keep task order as the library reports them.
- `DoLookup`: `sent` lists every prepared task. Which of them are really sent after a transport error depends on scheduling, and the model does not capture that.
- Concurrent `getAuthToken` calls are not modelled: nothing else touches the cache between the read at the call instant and the write at the reply instant.
- node-cache's periodic expiry sweep is not modelled. It changes no answer of `get`. Key and value cloning are not modelled either.
- `RoundTenth` models `Math.round(s / 10)` on an integer status as `(s + 5) / 10` with floor division. The floating-point rounding of `s / 10` is not modelled.
- JSON numbers are integers, so there is no NaN or floating point. `_.isEmpty` is modelled for JSON values only; Maps, Sets, typed arrays and prototypes are not modelled. Property reads cover the own keys of objects; inherited properties are not modelled.
- `ValidateOptions`: options are a map from option name to its `.value`, and a missing option throws. Other shapes of the settings object are not modelled.
