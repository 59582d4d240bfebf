# commons.falcon request authentication and authorization, in Dafny

This project models the request-authentication and authorization core of
`commons.falcon`, a set of middlewares, hooks and helpers for Falcon web
services, and proves properties of the model.

- **`SimpleAuthMiddleware`** (module `AuthMiddleware`).
  - `process_request` classifies each request by the first credential that matches. The checks run in this order: a JWT in `X-JWT`, the first hop of the proxy route in the IP whitelist, an API key, a client id and secret, an opaque `AUTHORIZATION` token.
  - It writes the scheme (and the JWT claims) into the request context, or raises the error class for a bad credential.
  - `process_resource` enforces each resource's list of accepted schemes.
  - The middleware is a class holding the shared configuration object, which its constructor fills with defaults in place.
  - `ProcessRequest` and `ProcessResource` update the request's context map and `user`, and the response status.
  - `ProcessRequest` delegates the credential checks to `Authenticate`, a method that changes nothing and returns the classification. `ProcessRequest` then writes what that classification implies.
  - The specification of `process_request` is a list of independent credential checks, one function per check. A request is classified by the first check that applies.
  - The JWT service and the OAuth client are function-valued fields.
- **`falcon_utils/auth.py`** (module `Auth`).
  - The three enumerations.
  - `timed_lru_cache`: a class holding one shared expiration instant and an LRU table. It is specified by a pure state-transition function `Step` over an integer clock, built on `LruStep` for the `lru_cache` call itself.
  - `fetch_jwk`: the key endpoint is a function parameter.
  - `JWTVerifyService.verify`: a method that goes through the cache. It is specified by a pure mapping from the fetch outcome and the decoding outcome to the `(error, claims)` pair.
- **`AuthorizePayload`** (module `AuthorizePayloadHook`). The hook checks the id an extractor names against the token's `self` and `dependants` profiles for its access level. The hook is a pure function of the request context, so it cannot write to the context.
- **`generate_cache_key`** (module `CacheKey`).
  - The parameter names are sorted in place in an array.
  - The segments are built in a `for` loop.
  - Both are proved against a pure key function that uses a verified insertion sort.
- **`JsonMiddleware.get_json` / `validate` / `bad_request`** (module `JsonMiddleware`). The validator chain is proved equivalent to one declarative acceptability predicate.
- **`ApiVersioningScheme.on_get` / `on_post`** (module `ApiVersion`). Dispatch is a function from the `X-API-VERSION` header and the resource's handler names to the handler called.
- **`process_result_with_code`** (module `HttpResponse`). The mapping from status code to body.
- **`FalconRequestIdMiddleware` and `generate_request_id`** (module `RequestId`). The id format, with a hex round-trip, and a method that writes the chosen id into the request context and the optional shared context object.

Python behaviour is modelled explicitly where it matters:

- truthiness (`Truthy`, `Present`), `a or b` and `dict.get` with defaults;
- `True == 1` in list membership (`PyEq`, `PyIn`);
- exact `type(value) is dtype` checks, so `bool` is not `int`;
- the `TypeError`s and `AttributeError`s the code does not catch, which appear as `Unhandled(name)`.

Request header names are the upper-case names the framework's WSGI request delivers. Python's `None` is `JNull`.

Where the code behaves differently from what a reader might expect, the model follows the code:

- A key set that the JOSE library cannot parse ends as `INVALID`, not `INTERNAL` (`Auth.VerifyErrorKinds`).
- A `None` answer from the key endpoint is memoised until the window expires, like any other result: this failure is cached like a success, which is negative caching (`Auth.FailedKeyFetchIsMemoised`). Only a fetch that raises is retried on the next call (`Auth.RaisedKeyFetchIsRetried`).
- The window has expired when `now >= expiration`, not only strictly after it (`Auth.Step`).
- A request that has no scheme and targets an exempted route is rejected by `process_resource` (see Findings).

## Model

| member | source | states |
|---|---|---|
| Auth.SchemeFromValue | falcon_utils/auth.py:27-33 | a value names the scheme member with that value, and no member has a value outside the six |
| Auth.AccessLevelFromValue | falcon_utils/auth.py:36-39 | a value names the access level with that value, and there are exactly three |
| Auth.VerificationErrorFromValue | falcon_utils/auth.py:42-45 | a value names the verification error with that value, and there are exactly three |
| Auth.EnumValuesRoundTrip | falcon_utils/auth.py:27-45 | every member is recovered from its string value, so each enum's values are pairwise distinct |
| Auth.Find | falcon_utils/auth.py:50 | the lookup in the `lru_cache` table finds the position of the arguments, or reports that none holds them |
| Auth.Step | falcon_utils/auth.py:50-61 | one call: the table stays duplicate-free and within `maxsize`; the window restarts at `now + lifetime` exactly when `now >= expiration`; the function runs iff the window expired or the arguments are not memoised; a run's outcome is what the caller gets, otherwise the memoised value; a returned value becomes the most recently used entry; inside the window every other memoised entry keeps its value, except the oldest one when a miss fills a full table; the table holds no key but the old ones and the call's; a call whose function raises stores nothing (the table is only cleared when the window expired) |
| Auth.RepeatWithinWindowIsMemoised | falcon_utils/auth.py:50-60 | within one window, after any run of calls with other arguments that together with the table's keys use no more than `maxsize` distinct argument tuples, a repeat call with the same arguments is answered from the table with the first call's result, without running the function: at most one run per argument tuple per window |
| Auth.ExpiredWindowInvokes | falcon_utils/auth.py:56-58 | once the window has expired the table is cleared, the function runs and the window restarts from `now` |
| Auth.TimedLruCache.constructor | falcon_utils/auth.py:48-52 | decoration starts the first window at decoration time, with an empty table |
| Auth.LruStep | falcon_utils/auth.py:60 | the `lru_cache` call on its own: the table stays duplicate-free and within `maxsize`; the function runs iff the arguments are not memoised; a hit answers the memoised value; a returned value becomes the most recently used entry; every other memoised entry keeps its value, except the oldest one when a miss fills a full table; a call whose function raises leaves the table unchanged; the expiration is untouched |
| Auth.Store | falcon_utils/auth.py:60 | storing into the `lru_cache` table: with `maxsize` 0 nothing is stored; otherwise the new entry is the most recent and the table stays within `maxsize` |
| Auth.Memo | falcon_utils/auth.py:60 | the memoised value for some arguments exists iff the table holds those arguments |
| Auth.MemoisedThroughoutWindow | falcon_utils/auth.py:50-60 | inside one window, a memoised entry keeps its value across any run of calls whose arguments, with the table's, number no more than `maxsize`, and the window is unchanged |
| Auth.TimedLruCache.Call | falcon_utils/auth.py:55-61 | the wrapped call updates the expiration and table exactly as `Step` says, and keeps the table valid |
| Auth.TimedLruCache.LruCall | falcon_utils/auth.py:60 | the `lru_cache` call updates the table exactly as `LruStep` says, and keeps the table valid |
| Auth.FetchJwk | falcon_utils/auth.py:72-79 | a status other than 200 from the key endpoint yields `None`; a 200 JSON body is returned as it is, and a 200 body that is not JSON raises |
| Auth.VerifyOutcome | falcon_utils/auth.py:81-96 | `verify` gives `INTERNAL` iff the key response is falsy, no error iff keys are truthy and decoding succeeds, and the decoded claims on success; claims are `None` whenever there is an error |
| Auth.VerifySetsExactlyOne | falcon_utils/auth.py:84-96 | exactly one of the error and the claims is set |
| Auth.VerifyErrorKinds | falcon_utils/auth.py:92-96 | `EXPIRED` iff decoding reports expiry; a malformed key set and a key body that is not JSON both give `INVALID` |
| Auth.FailedKeyFetchIsMemoised | falcon_utils/auth.py:72-85 | a non-200 key response makes `verify` return `INTERNAL`; within the window, after any calls for other services that stay within `maxsize` distinct services (the table is keyed by the argument tuple `(self,)`, not by the URL), the endpoint is not asked again and `verify` keeps returning `INTERNAL` |
| Auth.RaisedKeyFetchIsRetried | falcon_utils/auth.py:55-96 | a 200 reply that is not JSON makes `fetch_jwk` raise and `verify` return `INVALID`; nothing is memoised, so the next call runs `fetch_jwk` again, even inside the window |
| Auth.ExpiryClearsOtherServices | falcon_utils/auth.py:55-58 | the services share one table: a call that finds the window expired clears every other service's entry |
| Auth.JWTVerifyService.Verify | falcon_utils/auth.py:81-96 | `verify` advances the shared `fetch_jwk` cache one step and returns the mapping of its outcome |
| Falcon.Header | commons_falcon/middlewares/auth_middleware.py:27 | `headers.get(name)` is present iff the name is, and then it is the header's value |
| Falcon.Or | commons_falcon/middlewares/auth_middleware.py:52-53 | `a or b` on optional header values: the first when it is non-empty, else the second |
| Falcon.ContextGet | commons_falcon/middlewares/auth_middleware.py:92-94 | `context.get(key)` is the stored value, or `None` for a missing key |
| AuthMiddleware.TokenAfterPrefix | commons_falcon/middlewares/auth_middleware.py:65 | the token is the header with its first 7 characters removed, and empty when the header is no longer than 7 |
| AuthMiddleware.FirstDecidedIsEarliest | commons_falcon/middlewares/auth_middleware.py:27-80 | the classification is that of the earliest check that applies |
| AuthMiddleware.NoCheckAppliesIsAnonymous | commons_falcon/middlewares/auth_middleware.py:27-80 | when no check applies the request stays anonymous |
| AuthMiddleware.LaterChecksIrrelevant | commons_falcon/middlewares/auth_middleware.py:27-80 | checks after the deciding one cannot change the classification (each check returns) |
| AuthMiddleware.PreflightIgnoresCredentials | commons_falcon/middlewares/auth_middleware.py:22-25 | an `OPTIONS` request is a preflight whatever its credentials, configuration or services, and writes no scheme |
| AuthMiddleware.JwtIsCheckedFirst | commons_falcon/middlewares/auth_middleware.py:27-41 | with `X-JWT` present, expired maps to `InvalidJWTError`, invalid to `UnAuthorizedSession`, internal to `ServiceFailureError`, anything else to `UnAuthorizedSession`; success is scheme JWT with the claims as payload |
| AuthMiddleware.JwtWinsOverApiKey | commons_falcon/middlewares/auth_middleware.py:27-49 | a valid JWT wins over a configured API key |
| AuthMiddleware.IpWhitelistUsesFirstHop | commons_falcon/middlewares/auth_middleware.py:43-45 | without a JWT, the request is IP-whitelisted iff the first entry of its proxy route is whitelisted |
| AuthMiddleware.ClassifiedByLaterCheck | commons_falcon/middlewares/auth_middleware.py:43-80 | once the JWT and IP checks do not apply, the API key, then client secret, then access token decide, else the request is anonymous |
| AuthMiddleware.ClientSecretRule | commons_falcon/middlewares/auth_middleware.py:51-61 | client-secret authentication succeeds iff both id and secret are given (`CLIENT-ID` falling back to `CLIENTID`, `CLIENT-SECRET` to `CLIENTSECRET`) and the id's configured secret equals the given one |
| AuthMiddleware.AccessTokenRule | commons_falcon/middlewares/auth_middleware.py:63-80 | an introspection or user-lookup error rejects the request; it is an OAuth session iff neither errs and the user's username is non-empty, and then `req.user` is the looked-up user; a user dictionary without a truthy `username` is `UnAuthorizedSession`, and a user that is not a dictionary raises `AttributeError` |
| AuthMiddleware.NoCredentialIsAnonymous | commons_falcon/middlewares/auth_middleware.py:27-80 | a request with no credential is let through with its context unchanged |
| AuthMiddleware.AuthConfig.constructor | commons_falcon/middlewares/auth_middleware.py:9-10 | the configuration object holds the four entries it is given, a missing one as `None` |
| AuthMiddleware.JwtErrorToHttp | commons_falcon/middlewares/auth_middleware.py:31-37 | expired gives `InvalidJWTError`, internal `ServiceFailureError`, and invalid or any other value `UnAuthorizedSession`, each exactly so |
| AuthMiddleware.CheckJwt | commons_falcon/middlewares/auth_middleware.py:27-41 | the JWT check applies iff `X-JWT` is present and non-empty, and then concludes a JWT session or a rejection |
| AuthMiddleware.CheckIpWhitelist | commons_falcon/middlewares/auth_middleware.py:43-45 | the request is IP-whitelisted iff the first hop of its route is whitelisted; an empty route raises `IndexError` |
| AuthMiddleware.CheckApiKey | commons_falcon/middlewares/auth_middleware.py:47-49 | the API-key check applies iff `X-API-KEY` is given and listed, and then concludes the API-key scheme |
| AuthMiddleware.CheckClientSecret | commons_falcon/middlewares/auth_middleware.py:51-61 | the client-secret check concludes only the client-secret scheme, and only when id and secret are both given and the id's configured secret is the given one |
| AuthMiddleware.CheckAccessToken | commons_falcon/middlewares/auth_middleware.py:63-80 | the access-token check applies iff `AUTHORIZATION` is present and non-empty; it concludes an OAuth session whose user is a dictionary with a truthy `username`, an `UnAuthorizedSession` rejection, or an `AttributeError` |
| AuthMiddleware.Classify | commons_falcon/middlewares/auth_middleware.py:19-80 | a request is a preflight iff its method is `OPTIONS` |
| AuthMiddleware.EnforceAsWritten | commons_falcon/middlewares/auth_middleware.py:92-116 | `process_resource` as written lets a request through iff the resource lists no scheme, the scheme is `EXEMPTED_PATH`, or the scheme is listed; marking the route exempted always comes with an `UnAuthorizedSession` |
| AuthMiddleware.EnforceIntended | commons_falcon/middlewares/auth_middleware.py:102-110 | the intended enforcement only marks an exempted route when it lets the request through |
| AuthMiddleware.EnforcementRules | commons_falcon/middlewares/auth_middleware.py:95-116 | an empty scheme list allows and changes nothing; a pre-set `EXEMPTED_PATH` is allowed; any other scheme is allowed iff listed, else `ForbiddenError` |
| AuthMiddleware.ExemptedRouteRejectedAsWritten | commons_falcon/middlewares/auth_middleware.py:102-113 | with a non-empty list and no scheme the request is always rejected as `UnAuthorizedSession`, and the context is marked `EXEMPTED_PATH` iff the route is exempted |
| AuthMiddleware.IntendedDiffersOnlyOnExemptedRoutes | commons_falcon/middlewares/auth_middleware.py:102-113 | the intended enforcement lets an unauthenticated exempted route through and agrees with the code on every other request |
| AuthMiddleware.SimpleAuthMiddleware.constructor | commons_falcon/middlewares/auth_middleware.py:9-17 | missing `exempted_paths`, `clients`, `api_keys` and `ip_whitelist` keys are filled in the shared configuration with empty values, and present ones are kept |
| AuthMiddleware.SimpleAuthMiddleware.ProcessRequest | commons_falcon/middlewares/auth_middleware.py:19-80 | records the clock, and raises, writes the scheme and payload, sets `req.user`, and completes the response exactly as the first applicable check decides |
| AuthMiddleware.SimpleAuthMiddleware.Authenticate | commons_falcon/middlewares/auth_middleware.py:27-80 | running the JWT, IP-whitelist, API-key, client-secret and access-token checks in order, returning at the first that applies, yields the classification of the earliest applicable check, and never a preflight |
| AuthMiddleware.SimpleAuthMiddleware.AuthenticateAccessToken | commons_falcon/middlewares/auth_middleware.py:63-80 | the token check agrees with its specification, and an accepted user is a dictionary with a truthy `username` |
| AuthMiddleware.SimpleAuthMiddleware.ProcessResource | commons_falcon/middlewares/auth_middleware.py:82-116 | enforces the resource's accepted schemes as written, including marking an exempted route before raising, and leaves `req.user` alone |
| AuthorizePayloadHook.Granted | commons_falcon/hooks/authorize_payload.py:40-51 | the membership test succeeds iff both profile entries are lists, or both are strings and the id is a string; otherwise it raises `TypeError` |
| AuthorizePayloadHook.AuthorizePayload.Call | commons_falcon/hooks/authorize_payload.py:25-51 | a request not authenticated by JWT passes, and a rejection is `UnAuthorizedSession`, `AttributeError` or `TypeError` |
| AuthorizePayloadHook.NonJwtRequestPasses | commons_falcon/hooks/authorize_payload.py:28-30 | a request not authenticated by JWT passes, whatever the extractor is |
| AuthorizePayloadHook.MissingPayloadOrIdRejected | commons_falcon/hooks/authorize_payload.py:32-38 | a JWT request without a payload, or whose extracted id is `None`, is an unauthorized session |
| AuthorizePayloadHook.AllowedIffIdGranted | commons_falcon/hooks/authorize_payload.py:40-51 | with list-valued profiles (a missing list being empty) the request passes iff the id equals one in `self` (SELF), in `dependants` (DEPENDANT), or in either (SELF_AND_DEPENDANT), and is otherwise an unauthorized session |
| AuthorizePayloadHook.GrantedWidens | commons_falcon/hooks/authorize_payload.py:41-48 | an id the SELF or DEPENDANT entry grants is granted by the concatenated SELF_AND_DEPENDANT entry, for lists and for strings |
| AuthorizePayloadHook.SelfAndDependantWidens | commons_falcon/hooks/authorize_payload.py:41-48 | whatever SELF or DEPENDANT admits, SELF_AND_DEPENDANT admits too, for list- and string-valued profiles |
| CacheKey.StripSlash | commons_falcon/cache.py:47-49 | at most one trailing `/` is removed, and only when there is one |
| CacheKey.UpperChar | commons_falcon/cache.py:63 | a lower-case ASCII letter maps to the upper-case letter 32 code points below it, and every other character is kept |
| CacheKey.Upper | commons_falcon/cache.py:63 | the upper-cased method has the same length, character by character |
| CacheKey.SortStrings | commons_falcon/cache.py:54-55 | the sorted names are in Python string order and are a permutation of the request's names |
| CacheKey.SortedUnique | commons_falcon/cache.py:55 | a sorted arrangement of the names is unique |
| CacheKey.InsertIntoPrefix | commons_falcon/cache.py:55 | one insertion step extends the sorted prefix by one element and permutes the array |
| CacheKey.SortInPlace | commons_falcon/cache.py:55 | `param_keys.sort()` leaves the array sorted and a permutation of what it held |
| CacheKey.Segments | commons_falcon/cache.py:58-61 | one `name:v1,v2` segment per name, in order |
| CacheKey.CacheKeyOf | commons_falcon/cache.py:45-63 | the key starts with the path less at most one `/`, `:`, the upper-cased chosen method, and `:` |
| CacheKey.KeyIgnoresParameterOrder | commons_falcon/cache.py:54-55 | the key does not depend on the order in which the request yields its parameter names |
| CacheKey.NoParametersEndsWithColon | commons_falcon/cache.py:61-63 | without parameters the key is `path:METHOD:` and ends with `:` |
| CacheKey.KeyPrefix | commons_falcon/cache.py:47-63 | the key starts with the path less at most one `/`, `:`, the upper-cased method (the argument when truthy, else the request's), and `:` |
| CacheKey.SortedParamKeys | commons_falcon/cache.py:54-55 | the array of names, sorted in place, holds exactly the sorted names |
| CacheKey.QueryKeys | commons_falcon/cache.py:56-60 | the loop builds one `name:v1,v2` segment per sorted name, in order |
| CacheKey.GenerateCacheKey | commons_falcon/cache.py:45-63 | the key the code builds step by step equals the key function of the request's path, method and parameters |
| JsonMiddleware.JsonMiddleware.BadRequestFor | commons_falcon/middlewares/json_middleware.py:36-41 | the 400 carries its title and description exactly in debug mode |
| JsonMiddleware.JsonMiddleware.FirstViolation | commons_falcon/middlewares/json_middleware.py:83-115 | no rule is violated iff the value is acceptable |
| JsonMiddleware.JsonMiddleware.Validate | commons_falcon/middlewares/json_middleware.py:61-124 | `validate` succeeds iff the value is acceptable and then returns it unchanged; in debug mode a failure names the "Validation error" title and the field |
| JsonMiddleware.JsonMiddleware.GetJson | commons_falcon/middlewares/json_middleware.py:43-59 | a success is acceptable and is the body's value when the field is present, else the default; an absent field without default fails; in debug mode a failure names the field |
| JsonMiddleware.ValidateAcceptsExactlyAcceptable | commons_falcon/middlewares/json_middleware.py:61-124 | `validate` returns the value unchanged iff it meets every enabled rule, and otherwise raises a "Validation error" 400 |
| JsonMiddleware.TypeIsCheckedFirst | commons_falcon/middlewares/json_middleware.py:83-93 | a value whose type is not exactly `dtype` is reported as a type error before anything else |
| JsonMiddleware.ZeroBoundIsOff | commons_falcon/middlewares/json_middleware.py:95-115 | a `min` or `max` of 0 behaves exactly as an omitted one |
| JsonMiddleware.BoundsApplyToStringsAndIntegers | commons_falcon/middlewares/json_middleware.py:95-115 | bounds constrain only strings (by length) and integers (by value) |
| JsonMiddleware.PresentFieldIgnoresDefault | commons_falcon/middlewares/json_middleware.py:49-51 | a present field is validated as it is and any default is ignored |
| JsonMiddleware.AbsentFieldRules | commons_falcon/middlewares/json_middleware.py:52-59 | an absent field without a default is a "Missing JSON field" 400; with a default, the default is validated and returned |
| JsonMiddleware.GetJsonResultIsSuppliedOrDefault | commons_falcon/middlewares/json_middleware.py:43-59 | a successful `get_json` returns the body's value or else the default, and it is acceptable |
| ApiVersion.Dispatch | commons_falcon/mixins/api_version.py:14-41 | a dispatch runs a handler the resource has, or raises `InvalidApiVersionScheme` (only when a version is given) or `AttributeError` |
| ApiVersion.NoVersionDelegates | commons_falcon/mixins/api_version.py:16-19 | a missing or empty `X-API-VERSION` delegates to `get` (GET) or `post` (POST) |
| ApiVersion.VersionSelectsHandler | commons_falcon/mixins/api_version.py:21-27 | version `v` runs `on_get_v`/`on_post_v` iff the resource has it, and otherwise raises `InvalidApiVersionScheme` without running a handler |
| ApiVersion.DispatchedHandlerExists | commons_falcon/mixins/api_version.py:14-41 | a successful dispatch runs exactly one handler, which the resource has |
| ApiVersion.VerbsNeverCross | commons_falcon/mixins/api_version.py:22-36 | GET reaches only `get` or `on_get_` handlers and POST only `post` or `on_post_` handlers; neither verb reaches the other's fallback or a handler with the other's prefix |
| HttpResponse.ProcessResultWithCode | commons_falcon/response/http.py:16-31 | the first component of the result is always the status code |
| HttpResponse.OkReturnsDecodedBody | commons_falcon/response/http.py:20-24 | status 200 returns the decoded body, or the schema object built from it; an unparseable body, or a non-object given to a schema, raises |
| HttpResponse.ErrorStatusNeverRaises | commons_falcon/response/http.py:25-29 | status 400 or more returns the decoded body, else `{"error": text}`, and never raises |
| HttpResponse.OtherStatusIsEmpty | commons_falcon/response/http.py:19-31 | any other status returns an empty object |
| RequestId.GenerateRequestId | commons_falcon/middlewares/request_id.py:9-10 | a generated id is the timestamp, then `.`, then 32 characters |
| RequestId.Hex | commons_falcon/middlewares/request_id.py:10 | the hex text has two lower-case hex digits per byte |
| RequestId.UnhexHex | commons_falcon/middlewares/request_id.py:10 | the hex text decodes back to the bytes |
| RequestId.GeneratedIdShape | commons_falcon/middlewares/request_id.py:9-10 | a generated id is the timestamp, `.`, and 32 lower-case hex digits that decode to the 16 random bytes |
| RequestId.ChosenRequestId | commons_falcon/middlewares/request_id.py:21-24 | a present header is used verbatim (even when empty), else the generated id |
| RequestId.SuppliedIdIgnoredAsWritten | commons_falcon/middlewares/request_id.py:21-24 | looking up `x-request-id` among upper-case header names always misses, so a supplied id is ignored |
| RequestId.SuppliedIdUsedWhenCanonical | commons_falcon/middlewares/request_id.py:21-24 | looked up under its upper-case name, a supplied id is used verbatim and a missing one is generated |
| RequestId.FalconRequestIdMiddleware.ProcessRequest | commons_falcon/middlewares/request_id.py:20-28 | the chosen id is written to `req.context['request_id']` and, when a shared context is given, to its `request_id` |

## Left out

- JWT cryptography: parsing the key set and checking the token are a decoding function parameter with four outcomes (`Auth.DecodeOutcome`).
- Network I/O: the key endpoint, OAuth introspection and user lookup are function parameters. Transport exceptions of `requests.get` are not modelled.
- Concurrency: the memo table and `threading.local` are shared between threads without a lock.
- Auth.TimedLruCache.Call: reads the clock once per call. On an expired call the code reads it a second time (lines 56 and 58), so its new window starts a moment after `now`.
- Auth.TimedLruCache.Call: the table is keyed by the whole argument tuple. Keyword arguments and `typed` keys are not distinguished.
- Auth.VerifySetsExactlyOne: requires that a truthy key set does not decode the token to claims that are the JSON literal `null`, for which both components would read as `None`; the model does not cover such claims.
- AuthMiddleware.SimpleAuthMiddleware.ProcessRequest: the JWT service and the OAuth client are always present. A missing service would raise `AttributeError` once its credential is presented.
- AuthMiddleware.SimpleAuthMiddleware.Authenticate: the checks decide before anything is written to the request, whereas the code writes inside the branch that returns. The services never see the request, so the two orders have the same effect.
- AuthMiddleware.AuthConfig: a configuration key present with the value `None` is not modelled. Only missing keys are defaulted.
- AuthMiddleware.SimpleAuthMiddleware.ProcessRequest: verification errors other than the enum members (`Unrecognised`) and falsy non-`None` error values are collapsed into "some truthy value" and `None`.
- `process_response` of the auth middleware does nothing and is not modelled.
- AuthorizePayloadHook.AuthorizePayload.Call: the extractor is a total function. An extractor that raises is not modelled.
- Json.PyEq: `True == 1` is honoured at the top level only. Inside lists or objects, equality is structural.
- CacheKey.Upper: upper-cases ASCII letters only. Python's full Unicode case mapping is not modelled.
- `cached`, `get_default_redis_cache` and the monkey-patching in `commons_falcon/cache.py` are class metaprogramming and Redis configuration, and are not modelled.
- JsonMiddleware.JsonMiddleware.Validate: the `match` (regular expression) validator, float values and float bounds are not modelled. Bounds are integers.
- JsonMiddleware.JsonMiddleware.BadRequestFor: the description text is represented by the field and a structured complaint, not by Python's formatted string.
- JsonMiddleware.JsonMiddleware.GetJson: the body is a JSON object. Unknown keyword arguments (a `TypeError`) and non-object bodies are not modelled.
- `JsonMiddleware.process_request` and `process_response` read the stream, decode JSON and encode BSON. They are I/O and are not modelled.
- ApiVersion.Dispatch: the resource is the set of names of its truthy attributes. The handler call itself, with unchanged arguments, is not modelled.
- HttpResponse.ProcessResultWithCode: the schema constructor is a total function. Schema validation errors and `req_log_obj` are not modelled.
- RequestId.GenerateRequestId: the timestamp text and the 16 random bytes are parameters. Float formatting, the clock and the random source are not modelled.
- RequestId.FalconRequestIdMiddleware: the shared context is an object with a `request_id` attribute. A plain `dict`, as the type hint suggests, would fail on attribute assignment.
- Rate limiting, logging, metrics, schema and ORM hooks, `csv`, the test route and packaging are outside the authentication core.

## Findings

| source | as written | input that shows it | evidently intended | confidence | as-written member | corrected member |
|---|---|---|---|---|---|---|
| commons_falcon/middlewares/auth_middleware.py:102-113 | on an exempted route with no scheme, the context is set to `EXEMPTED_PATH` but the local copy of the scheme stays `None`, so line 112 raises `UnAuthorizedSession` | a resource with `authorization_schemes = [JWT]`, a request without credentials whose `uri_template` is in `exempted_paths` | the request is let through as `EXEMPTED_PATH`, as the method's docstring and the shortcut at line 108 describe | high; not executed | AuthMiddleware.ExemptedRouteRejectedAsWritten | AuthMiddleware.EnforceIntended |
| commons_falcon/middlewares/request_id.py:7-21 | the id is looked up as `x-request-id`, but the framework's WSGI request gives header names in upper case (the auth middleware relies on this with `X-JWT`) | a request with header `X-Request-Id: abc` | the request id is `abc` | medium (depends on the framework's header-name normalisation); not executed | RequestId.SuppliedIdIgnoredAsWritten | RequestId.SuppliedIdUsedWhenCanonical |
