# Authentication decisions and user table of a NestJS API, in Dafny

This project models the core of a small NestJS REST API:

- the **combined authentication guard** that runs on every request. It lets
  public routes through. Otherwise it accepts an allowed API key (the
  `X-API-Key` header, or `Authorization: ApiKey <key>`) and attaches a fixed
  service principal. Failing that, it tries a JWT (bearer header, cookie, or
  `?token=`). If neither succeeds it refuses with one fixed 401 message;
- the **API-key-only guard**, which also reads `?api_key=` and reports
  "API key is missing" and "Invalid API key" as separate errors;
- the **API-key allow-list** of `AuthService`: the `API_KEYS` setting split at
  commas, trimmed, empty pieces dropped, and membership in the result;
- the **JWT strategy**: the order of token sources, and the payload check that
  turns a verified token into a principal;
- the **user store** `UsersService`: an ordered in-memory list with find,
  append, in-place merge-update and splice-delete; `findOne`, `update` and
  `remove` throw NotFound on an unknown id, while `create` takes no id from
  the caller and never throws.

Modules, one per source file or component:

| file | module | models |
|---|---|---|
| `wrappers.dfy` | `Wrappers` | `Option` (a `null`able value) and `Result` (a value or a thrown error) |
| `js_strings.dfy` | `JsStrings` | `trim`, `split(',')`, `join(',')` and `startsWith` as JavaScript defines them |
| `auth_service.dfy` | `AuthService` | `getValidApiKeys`, `validateApiKey`, `verifyToken`, the demo payload |
| `requests.dfy` | `Requests` | the request fields the guards read, route visibility, the principal, the 401 error |
| `jwt_strategy.dfy` | `JwtStrategy` | the token extractors, `validate`, and the passport flow of `AuthGuard('jwt')` |
| `api_key_sources.dfy` | `ApiKeySources` | the key sources both guards read |
| `api_key_guard.dfy` | `ApiKeyGuard` | `ApiKeyGuard.canActivate` and its three-source `extractApiKey` |
| `combined_auth_guard.dfy` | `CombinedAuth` | `CombinedAuthGuard.canActivate`, which writes `request.user`, and its `extractApiKey` |
| `users_service.dfy` | `Users` | `UsersService` over its `users` list |

The combined guard changes state. `CombinedAuth.Decide` is its specification
as a function. The class method `CombinedAuthGuard.CanActivate` carries out the
steps on a `RequestContext`, whose `user` field is the mutable `request.user`.
Its postcondition ties the returned value and the new `user` to `Decide`. The
lemmas about `Decide` state the guard's properties. `UsersService` is a class
whose `users` field is reassigned by `Create`, `Update` and `Remove`. The
search is a loop method, `FindIndex`, proved against the function
`FirstIndexOf`.

Collaborators the model does not contain are passed in as parameters of a
configuration value (`JwtStrategy.JwtOptions`):

- the bearer-header parser of passport-jwt (section 2.1 of RFC 6750);
- the token verifier, which checks signature and expiry under the secret (RFC 7519).

The clock in `UsersService.create` is a parameter too.

Details of the code the model keeps:

- The check that `sub` and `email` are non-empty happens in
  `JwtStrategy.validate`, after the token verifier has accepted the token.
  The verifier is modelled as an oracle, and `Validate` applies the check
  to what it returns.
- The JWT attempt runs whenever the API-key attempt does not accept: when
  no key is present and also when a key outside the allow-list is present.
- An `Authorization` header of exactly `ApiKey ` yields the empty key in the
  API-key-only guard's extractor, and the search stops there without reading
  `?api_key=`. The guard then answers "API key is missing"
  (`ApiKeyGuard.EmptySchemeKeyShadowsQuery`).
- passport-jwt's `fromExtractors` skips empty strings as well as `null`, so
  an empty bearer token or cookie falls through to the next source.
- No cookie parser is registered at start-up, so `request.cookies` may be
  undefined. `HttpRequest.cookies` is therefore optional.
- The service principal has the email `service@api.local`.

## Model

| member | source | states |
|---|---|---|
| `JsStrings.Trim` | api/src/modules/auth/auth.service.ts:52 | the result has no whitespace at either end; an already trimmed string is returned unchanged |
| `JsStrings.TrimDropsOnlyBlanks` | api/src/modules/auth/auth.service.ts:52 | the result is a contiguous stretch of the input with only whitespace before and after it, which together with `Trim`'s contract determines `trim` completely |
| `JsStrings.TrimEmptyIff` | api/src/modules/auth/auth.service.ts:52 | trimming leaves the empty string exactly when the input is all whitespace |
| `JsStrings.TrimKeepsChars` | api/src/modules/auth/auth.service.ts:52 | trimming only removes characters, so a trimmed piece holds no comma if the piece held none |
| `JsStrings.Split` | api/src/modules/auth/auth.service.ts:52 | `split(',')` yields at least one piece and no piece contains a comma |
| `JsStrings.SplitAround` | api/src/modules/auth/auth.service.ts:52 | splitting `a + ',' + b` gives the pieces of `a` followed by the pieces of `b` |
| `JsStrings.JoinSplit` | api/src/modules/auth/auth.service.ts:52 | joining the pieces with commas gives back the original string, so splitting loses nothing |
| `JsStrings.SplitJoin` | api/src/modules/auth/auth.service.ts:52 | splitting the comma-join of comma-free pieces gives back exactly those pieces |
| `AuthService.TrimEach` | api/src/modules/auth/auth.service.ts:52 | `map(trim)` keeps the length and trims each piece in place |
| `AuthService.NonEmpty` | api/src/modules/auth/auth.service.ts:52 | `filter(Boolean)` never grows the list and every string it keeps is non-empty |
| `AuthService.NonEmptyMembership` | api/src/modules/auth/auth.service.ts:52 | a string survives `filter(Boolean)` iff it was in the list and is non-empty |
| `AuthService.KeysOf` | api/src/modules/auth/auth.service.ts:52 | the split/trim/filter pipeline gives at most one key per comma-separated piece, and no key is empty |
| `AuthService.GetValidApiKeys` | api/src/modules/auth/auth.service.ts:49-53 | every allowed key is non-empty, has no surrounding whitespace and contains no comma |
| `AuthService.GetValidApiKeysIsPipeline` | api/src/modules/auth/auth.service.ts:50-52 | the early return for an empty or unset setting agrees with the split/trim/filter pipeline |
| `AuthService.KeysOfMembership` | api/src/modules/auth/auth.service.ts:52 | a key is in the pipeline's output iff it is non-empty and some comma-separated piece of the setting trims to it |
| `AuthService.ValidateApiKey` | api/src/modules/auth/auth.service.ts:41-44 | a key is valid iff it is non-empty and some piece of the setting trims to it; the empty key is never valid; a valid key is trimmed and comma-free |
| `AuthService.GetValidApiKeysConcat` | api/src/modules/auth/auth.service.ts:52 | keys keep their order: the list for `a,b` is the list for `a` followed by the list for `b` |
| `AuthService.GetValidApiKeysOfJoin` | api/src/modules/auth/auth.service.ts:49-53 | a comma-joined list of well-formed keys parses back to exactly that list |
| `AuthService.SingleKeySetting` | api/src/modules/auth/auth.service.ts:41-53 | a setting holding one well-formed key allows exactly that key |
| `AuthService.BlankSettingAllowsNothing` | api/src/modules/auth/auth.service.ts:50-52 | a setting of only commas and whitespace, the empty setting included, yields no keys, so every key is rejected |
| `AuthService.UnsetSettingAllowsNothing` | api/src/modules/auth/auth.service.ts:50-51 | an unset `API_KEYS` reads as the empty default, yields no keys, and every key is refused |
| `AuthService.VerifyToken` | api/src/modules/auth/auth.service.ts:30-36 | returns the decoded payload exactly when the verifier does not throw, and no payload (null) when it throws |
| `Requests.GetAllAndOverride` | api/src/modules/auth/guards/combined-auth.guard.ts:29-32 | the first target that defines the metadata decides; the result is undefined only when no target defines it |
| `Requests.IsPublic` | api/src/modules/auth/guards/combined-auth.guard.ts:29-36 | handler-level visibility overrides controller-level; with neither declared the route is not public |
| `JwtStrategy.FromAuthHeaderAsBearerToken` | api/src/modules/auth/strategies/jwt.strategy.ts:13-14 | without an `Authorization` header there is no bearer token |
| `JwtStrategy.FromCookie` | api/src/modules/auth/strategies/jwt.strategy.ts:16-19 | the named cookie's value when the cookie jar exists and the cookie is non-empty, else none |
| `JwtStrategy.FromUrlQueryParameter` | api/src/modules/auth/strategies/jwt.strategy.ts:20-21 | the `token` query value when it is a string, else none |
| `JwtStrategy.FirstToken` | api/src/modules/auth/strategies/jwt.strategy.ts:12-22 | the first candidate that is a non-empty string wins; the result is always one of the candidates and never empty; there is none only when every candidate is absent or empty |
| `JwtStrategy.JwtFromRequest` | api/src/modules/auth/strategies/jwt.strategy.ts:12-22 | a found token is never empty and is the value of one of the three sources: bearer header, cookie, `?token=` |
| `JwtStrategy.JwtSourceOrder` | api/src/modules/auth/strategies/jwt.strategy.ts:12-22 | bearer header before cookie (named by `JWT_COOKIE_NAME`, default `access_token`) before `?token=`; a found token is never empty |
| `JwtStrategy.Validate` | api/src/modules/auth/strategies/jwt.strategy.ts:28-38 | refuses with "Invalid token payload" iff `sub` or `email` is missing or empty; otherwise keeps `sub` and `email`, takes `roles` or `[]`, and is not an API-key principal |
| `JwtStrategy.ValidateIgnoresTimestamps` | api/src/modules/auth/strategies/jwt.strategy.ts:33-37 | `iat` and `exp` never influence the resulting principal |
| `JwtStrategy.Authenticate` | api/src/modules/auth/strategies/jwt.strategy.ts:11-37 | a principal results iff a token is found, verifies and passes `validate`; it always has non-empty `sub` and `email` |
| `JwtStrategy.VerifiedButIncompleteRejected` | api/src/modules/auth/strategies/jwt.strategy.ts:29-31 | a token that verifies but lacks a non-empty `sub` or `email` does not authenticate |
| `JwtStrategy.VerifiedCompleteAccepted` | api/src/modules/auth/strategies/jwt.strategy.ts:33-37 | a token verifying to a complete payload authenticates as exactly its `sub`, `email` and roles (default `[]`) |
| `JwtStrategy.DemoPayloadValidates` | api/src/modules/auth/auth.service.ts:58-63 | the demo payload `{sub:'demo-user-id', email:'demo@example.com', roles:['user']}` passes validation unchanged |
| `ApiKeySources.HeaderApiKey` | api/src/modules/auth/guards/combined-auth.guard.ts:71-75 | `X-API-Key` gives a key only when it is a non-empty string, and then that string |
| `ApiKeySources.AuthorizationApiKey` | api/src/modules/auth/guards/combined-auth.guard.ts:77-81 | a key comes from `Authorization` iff it starts with `ApiKey `; the scheme followed by the key is the whole header |
| `ApiKeySources.QueryApiKey` | api/src/modules/auth/guards/api-key.guard.ts:52-56 | `?api_key=` gives a key only when it is a non-empty string, and then that string |
| `ApiKeySources.AuthorizationApiKeyRoundTrip` | api/src/modules/auth/guards/combined-auth.guard.ts:79-80 | any key written after `ApiKey ` is read back unchanged |
| `ApiKeyGuard.ExtractApiKey` | api/src/modules/auth/guards/api-key.guard.ts:39-59 | null only when all three sources give nothing; the empty key arises exactly from an `Authorization` of `ApiKey ` with no usable `X-API-Key` |
| `ApiKeyGuard.ExtractionOrder` | api/src/modules/auth/guards/api-key.guard.ts:40-56 | `X-API-Key` first, then `Authorization: ApiKey`, then `?api_key=` |
| `ApiKeyGuard.CanActivate` | api/src/modules/auth/guards/api-key.guard.ts:14-37 | public routes pass; "API key is missing" iff no non-empty key; "Invalid API key" iff a key outside the allow-list; true iff public or the key is allowed; it never returns false |
| `ApiKeyGuard.EmptySchemeKeyShadowsQuery` | api/src/modules/auth/guards/api-key.guard.ts:46-58 | `Authorization: ApiKey ` with nothing after it is refused as missing, whatever `?api_key=` holds |
| `CombinedAuth.ExtractApiKey` | api/src/modules/auth/guards/combined-auth.guard.ts:70-84 | `X-API-Key` wins over `Authorization: ApiKey`; null only when neither gives a key |
| `CombinedAuth.ServiceIdentity` | api/src/modules/auth/guards/combined-auth.guard.ts:45-50 | the service principal is flagged `isApiKey`, unlike every JWT principal, and has a non-empty `sub` and `email` |
| `CombinedAuth.Decide` | api/src/modules/auth/guards/combined-auth.guard.ts:27-68 | the guard passes without a principal iff the route is public; an attached principal has non-empty `sub` and `email` and, when flagged `isApiKey`, is the service principal; every refusal carries the one combined 401 message |
| `CombinedAuth.CombinedAuthGuard.constructor` | api/src/modules/auth/guards/combined-auth.guard.ts:20-25 | the guard keeps its read-only configuration |
| `CombinedAuth.CombinedAuthGuard.CanActivate` | api/src/modules/auth/guards/combined-auth.guard.ts:27-68 | returns true or throws exactly as `Decide` says; `request.user` is set to the principal on an accepting API key or JWT and is untouched otherwise |
| `CombinedAuth.PublicRoutePasses` | api/src/modules/auth/guards/combined-auth.guard.ts:29-36 | a public route passes whatever the credentials and attaches no principal |
| `CombinedAuth.HandlerOverridesController` | api/src/modules/auth/guards/combined-auth.guard.ts:29-34 | handler-private under a public controller is refused without credentials; handler-public under a private controller passes; no declaration means private |
| `CombinedAuth.AllowedApiKeyAttachesService` | api/src/modules/auth/guards/combined-auth.guard.ts:42-51 | an allowed key attaches exactly `{sub:'api-key-user', email:'service@api.local', roles:['service'], isApiKey:true}` |
| `CombinedAuth.TokenAfterRefusedKey` | api/src/modules/auth/guards/combined-auth.guard.ts:42-60 | an absent or refused API key still lets an authenticating JWT through, attaching the token's principal |
| `CombinedAuth.RejectionIsUniform` | api/src/modules/auth/guards/combined-auth.guard.ts:56-67 | the guard refuses iff the route is not public, no key is accepted and no JWT authenticates, always with the one fixed message |
| `CombinedAuth.AttachedUserIsAuthentic` | api/src/modules/auth/guards/combined-auth.guard.ts:42-60 | an attached principal is the service principal (iff `isApiKey`) or the principal of an authenticating JWT |
| `CombinedAuth.QueryApiKeyIgnored` | api/src/modules/auth/guards/combined-auth.guard.ts:70-84 | changing `?api_key=` never changes the decision |
| `CombinedAuth.ExtractorsAgree` | api/src/modules/auth/guards/api-key.guard.ts:39-59 | the API-key-only extractor is this guard's extractor with `?api_key=` as a last fallback |
| `CombinedAuth.HeaderKeyAcceptedByBoth` | api/src/modules/auth/guards/combined-auth.guard.ts:39-51 | a request the API-key-only guard accepts by a header key passes this guard too, as the service principal |
| `CombinedAuth.QueryKeyAcceptedOnlyByApiKeyGuard` | api/src/modules/auth/guards/api-key.guard.ts:52-56 | a key sent only as `?api_key=` passes the API-key-only guard and is refused by the combined guard |
| `Users.FirstIndexOf` | api/src/modules/users/users.service.ts:18 | the position of the first user with the id, with no match before it; none iff no user has the id |
| `Users.Merge` | api/src/modules/users/users.service.ts:40 | fields present in the update overwrite, absent ones keep their value, id and `createdAt` never change |
| `Users.MergeIdempotent` | api/src/modules/users/users.service.ts:40 | applying an update twice equals applying it once; an empty update changes nothing |
| `Users.RemoveAt` | api/src/modules/users/users.service.ts:49 | `splice(i, 1)` shortens by one, keeps the elements before and after `i` in order, and removes exactly one copy of `users[i]` |
| `Users.RemoveFirstDropsOne` | api/src/modules/users/users.service.ts:45-49 | removing by id drops exactly one user with that id; later duplicates and all other ids stay |
| `Users.UpdateKeepsFirstMatch` | api/src/modules/users/users.service.ts:36-41 | after an update the merged user is still the first with its id, so a later lookup finds it |
| `Users.AppendLookup` | api/src/modules/users/users.service.ts:31 | appending never changes what an existing id finds; a new user is found by its id only if no earlier user has it |
| `Users.UsersService.constructor` | api/src/modules/users/users.service.ts:8-11 | the store starts with John Doe (id 1) and Jane Smith (id 2), each with its own creation time |
| `Users.UsersService.FindAll` | api/src/modules/users/users.service.ts:13-15 | returns the whole current list unchanged |
| `Users.UsersService.FindIndex` | api/src/modules/users/users.service.ts:36 | returns the first index with the id, or -1 when there is none |
| `Users.UsersService.FindOne` | api/src/modules/users/users.service.ts:17-23 | succeeds iff some user has the id, returning the first such user; otherwise NotFound "User with ID … not found" |
| `Users.UsersService.Create` | api/src/modules/users/users.service.ts:25-33 | appends exactly one user with the given name, email, id and time; earlier users are unchanged |
| `Users.UsersService.Update` | api/src/modules/users/users.service.ts:35-42 | unknown id: NotFound and the list unchanged; otherwise only the first match is replaced by its merge and returned |
| `Users.UsersService.Remove` | api/src/modules/users/users.service.ts:44-50 | unknown id: NotFound and the list unchanged; otherwise exactly the first match is spliced out |

## Left out

- Token signing (`generateToken`, and the signing and `JWT_EXPIRES_IN` default of `generateDemoToken`) is not modelled: it is cryptography inside `JwtService`. Only the demo payload is modelled.
- Signature and expiry checking, and parsing `Authorization: Bearer …`, happen inside passport-jwt and jsonwebtoken. Both are parameters (`JwtOptions.verify`, `JwtOptions.bearerFromAuthorization`). The model assumes that the strategy and `verifyToken` use one and the same verifier: the strategy reads `JWT_SECRET`, and the configuration of `JwtService` is not part of this model. No lemma relies on this; `Authenticate` only wraps `JwtOptions.verify` the way `VerifyToken` does.
- JwtStrategy.FromUrlQueryParameter: a `?token=` that is not a string (repeated parameters) is modelled as no token. The source passes it to the verifier, which rejects it. The observable result, no JWT principal, is the same.
- JwtStrategy.FromCookie: the cookie jar holds strings only. JSON-valued cookies from a cookie parser are not modelled.
- `canActivate` is async in the source and the JWT guard is awaited. The model treats the decision as one sequential step; there is no concurrency.
- The route metadata store (`Reflector`, the `@Public()`, `@Roles()` and `@CurrentUser()` decorators) is modelled as a `Route` value holding the two visibility declarations. A roles guard (re-exported at api/src/modules/auth/index.ts:10) is not part of this model. None of the controllers here uses `@Roles()`, and the two guards modelled here carry `roles` without checking them.
- Controllers, bootstrap (CORS, the validation pipe, Swagger) and the web frontend are routing, I/O and presentation. DTO validation is taken as done: the whitelisting validation pipe leaves an update with only `name` and `email`.
- `Date.now()` and `new Date()` in `UsersService` are parameters (`id`, `now`). Ids are therefore not claimed to be unique, and the lemmas describe how duplicates behave.
- Users.UsersService.FindAll, Users.UsersService.FindOne, Users.UsersService.Create and Users.UsersService.Update return values, not references. In the source the caller receives the live array (`findAll`) or the stored object (`findOne`, the pushed `newUser` of `create`, `this.users[index]` of `update`), and mutating them would alter the store. That aliasing is not modelled.
- The JWT claims `sub`, `email` and `roles` are modelled as strings (and a list of strings). A decoded token can carry any JSON value there, for instance a non-zero number that passes the truthiness test of `validate`; such values are not modelled.
