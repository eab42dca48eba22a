# Google sign-in gateway and item store of fastify-playground, in Dafny

This project models the authentication gateway of a small Fastify service and the item
list it serves, and proves properties of that model.

The login is the OAuth 2.0 Authorization Code flow (section 4.1 of RFC 6749). The anti-forgery
`state` parameter (section 10.12 of RFC 6749) travels in an `oauth_state` cookie. The flow has
four steps:

- `GET /auth/google` draws a state, puts it in the cookie and in the authorization URL, and redirects.
- `GET /auth/google/callback` runs a fixed ladder of guards and then the service calls. The guards
  are: provider error, missing code, state check. The calls are: code exchange, ID-token check,
  ID-token verification, session-token signing.
- `GET /auth/me` echoes the claims of a valid bearer token.
- `POST /auth/logout` always answers the same thing.

Three request guards (`requireAuth`, `optionalAuth`, `requireAdmin`) decide whether a request
continues. The item store is a list that is changed in place. It gives out ids as the largest id
plus one, finds items by their first match, and renames and splices them. The item routes map its
answers to status codes.

Files and modules, one per source file, plus two shared modules:

- `wrappers.dfy` (`Wrappers`): `Option` and `Result`. A thrown exception is an `Err` that carries
  its message.
- `jwt.dfy` (`Jwt`): the claims that JWT verification attaches to a request, and its failure kinds.
- `utils_auth.dfy` (`AuthUtils`): utils/auth.js. The OAuth2 client is a `GoogleClient` value. It
  holds the configured client id and three oracle functions: `generateAuthUrl`, `getToken` and
  `verifyIdToken`.
- `middleware_auth.dfy` (`AuthMiddleware`): middleware/auth.js. Each guard is a function from the
  request (its `user` slot) and the verification result to `Continue(request)` or `Halt(reply)`.
  `Then` chains guards as a pre-handler list does.
- `routes_auth.dfy` (`AuthRoutes`): routes/auth.js. Each endpoint is a function that returns a status,
  a body and its effect on the cookie. `Env` holds the Google client, the JWT signer (an oracle) and
  the clock.
- `controllers_items.dfy` (`ItemsController`): controllers/items.js. The class `ItemStore` holds the
  list as a `seq<Item>` field, which its methods change in place. The lookups are loops, each
  proved against a specification function: `LastId` (through the recursive `MaxId`), the
  recursive `IndexOf`, and `FirstWithId` (defined through `IndexOf`). The
  changes are specified by `NewItem`, `Renamed` and `Removed`, and lemmas about those functions
  carry the invariants.
- `routes_items.dfy` (`ItemRoutes`): routes/items.js. Each handler is a method over the store. The
  mapping from its answer to a response is a pure function. The required-property rule of the
  POST and PUT body schemas is `ValidateBody`.

Inputs that stand in for I/O:

- The random login state, the wall-clock time (`Env.nowMs`) and the cookie and query values are
  parameters.
- The Google library calls and the JWT signer are oracle functions. The result of
  `request.jwtVerify()` is a `Verification` value.
- `parseInt` of URL parameters is not modelled: ids are `int` (see "## Left out" for body ids).

Where the code behaves differently from its own comments or from the usual OAuth flow (the model follows the code):

- The state cookie is cleared only on a fully successful callback. After a failed exchange, a
  failed verification or a failed signing, the cookie stays and can be offered again while it
  lives. The code sets `maxAge: 600000`. The cookie plugin writes that as `Max-Age`, which
  section 5.2.2 of RFC 6265 counts in seconds, so the cookie lives 600000 seconds (about 6.9 days),
  although the comment beside it says 10 minutes. `Callback`'s contract states the clearing rule,
  and `StateCookieOptions` keeps the bare 600000.
- The cookie is set with `secure: false`.
- A token set without an ID token gives 400 "Failed to get ID token from Google", not a 500.
- A POST body may carry its own `id`. The spread in `addItem` lets it override the allocated
  id, so a client can create a duplicate id (`ClientIdCanDuplicate`). Distinct ids are kept
  only for bodies without an `id`.
- `Math.random().toString(36).substring(7)` can yield the empty string. A login that drew it can
  never get past the state check (`EmptyStateNeverAccepted`), because the empty cookie is falsy.

## Model

| member | source | states |
|---|---|---|
| AuthUtils.GenerateTokenPayload | utils/auth.js:16-24 | the payload copies id, email, name and picture unchanged; `iat` is the millisecond clock divided by 1000, rounded down (`iat*1000 <= now < iat*1000+1000`) |
| AuthUtils.PayloadIgnoresOtherClaims | utils/auth.js:17-23 | the payload has only those five fields: users that agree on id, email, name and picture give the same payload, so `emailVerified` is dropped |
| AuthUtils.UserFromPayload | utils/auth.js:40-46 | the claim mapping sub→id, email→email, name→name, picture→picture, email_verified→emailVerified |
| AuthUtils.VerifyGoogleToken | utils/auth.js:31-50 | succeeds exactly when the library accepts the token for the configured client id as audience and returns a payload; the user is then that payload mapped; every failure is the single error "Invalid Google token" |
| AuthUtils.VerifyUsesConfiguredAudience | utils/auth.js:33-36 | the outcome depends on the library only through its answer for the configured client id as audience |
| AuthUtils.AuthUrlParamsFor | utils/auth.js:57-69 | exactly the scopes openid, email, profile; `access_type` offline; `include_granted_scopes` true; the state verbatim, or "" when omitted |
| AuthUtils.GetGoogleOAuthURL | utils/auth.js:57-70 | the URL is the library's rendering of exactly those options, and no other input reaches the builder |
| AuthUtils.ExchangeCodeForTokens | utils/auth.js:77-84 | succeeds exactly when the library's exchange does, returning its token set unchanged; any failure is the single error "Failed to exchange code for tokens" |
| AuthMiddleware.RequireAuth | middleware/auth.js:10-19 | halts exactly when verification fails, with 401, `result:false` and "Unauthorized: Invalid or missing token"; on success it continues with the claims attached |
| AuthMiddleware.OptionalAuth | middleware/auth.js:27-34 | never halts; the user becomes the verified claims, or null when verification fails |
| AuthMiddleware.RequireAdmin | middleware/auth.js:41-60 | no user gives 401 "Unauthorized: Authentication required" before any allowlist check; an email outside ["admin@yourdomain.com"] gives 403 "Forbidden: Admin access required"; it continues, unchanged, exactly when a user is present and its email is listed |
| AuthMiddleware.AdminDependsOnlyOnEmail | middleware/auth.js:51-52 | two users with the same email get the same decision and the same reply, whatever their other claims |
| AuthMiddleware.Then | middleware/auth.js:36-40 | a halted request stays halted; a continued one goes to the next guard. The cited lines only say to place `requireAdmin` after `requireAuth`; the rule that a hook which replies stops the list is Fastify's `preHandler` array semantics |
| AuthMiddleware.AdminAfterAuth | middleware/auth.js:10-60 | `requireAdmin` after `requireAuth`: a bad token gives the token's 401; a good token outside the allowlist gives 403; the request passes exactly for a verified, allowlisted email |
| AuthMiddleware.AdminAfterOptionalAuth | middleware/auth.js:27-60 | `requireAdmin` after `optionalAuth`: a bad token reaches the gate as a missing user (401 "Authentication required"); the request passes exactly for a verified, allowlisted email |
| AuthMiddleware.AuthRateLimitIsTenPerQuarterHour | middleware/auth.js:66-73 | the rate-limit settings are at most 10 per "15 minutes", with a `result:false` message |
| AuthRoutes.Login | routes/auth.js:23-43 | 302 exactly when the URL can be built; the redirect target is that URL; the `oauth_state` cookie carries the same state the URL builder received, with httpOnly true, secure false, maxAge 600000; otherwise 500 "Failed to initiate Google OAuth" with the thrown message and no cookie |
| AuthRoutes.CompleteLogin | routes/auth.js:111-143 | after the state check only 200, 400 "Failed to get ID token from Google" or 500 "Authentication failed" occur; `result` is true exactly for 200, which alone clears the state cookie |
| AuthRoutes.Callback | routes/auth.js:83-152 | the callback answers only 200, 400 or 500, always as JSON; `result` is true exactly for 200; the cookie is cleared on 200 and untouched otherwise |
| AuthRoutes.ProviderErrorFirst | routes/auth.js:87-93 | a non-empty `error` parameter gives 400 "Google OAuth error" with that error, and the reply is the same whatever the code, state, cookie and services |
| AuthRoutes.MissingCodeRejected | routes/auth.js:95-100 | with no provider error and no (or an empty) code, the reply is 400 "Authorization code is required", whatever the state and cookie |
| AuthRoutes.StateMismatchSkipsExchange | routes/auth.js:102-112 | an absent, empty or different cookie state gives 400 "Invalid state parameter", and replacing the token endpoint changes nothing: the exchange is never invoked |
| AuthRoutes.StateCheckPasses | routes/auth.js:102-112 | past the first two guards, the state check passes exactly when the cookie is non-empty and the query state equals it, and then the reply is what the exchange steps give |
| AuthRoutes.MissingIdTokenRejected | routes/auth.js:114-119 | a token set without an ID token, or with an empty one, gives 400 "Failed to get ID token from Google" |
| AuthRoutes.ServiceFailureIs500 | routes/auth.js:144-151 | a failure of the exchange, the verification or the signer gives 500 "Authentication failed" |
| AuthRoutes.CallbackSuccess | routes/auth.js:121-143 | a 200 implies that every guard passed and every service succeeded; the token is the signature of the payload built from the verified user, and the reply's user is that user's id, email, name and picture |
| AuthRoutes.CallbackSucceedsWhenAllPass | routes/auth.js:85-143 | conversely, when every guard passes and every service succeeds, the callback answers 200 |
| AuthRoutes.LoginThenCallback | routes/auth.js:24-112 | a browser that returns with the code and the state it was issued passes the state check (given a non-empty state), and the reply is what the exchange steps give |
| AuthRoutes.EmptyStateNeverAccepted | routes/auth.js:25-109 | a login that drew the empty state sets a cookie that can never pass the state check |
| AuthRoutes.Me | routes/auth.js:154-200 | 401 "Unauthorized: Invalid or missing token" exactly when verification fails; otherwise 200 echoing the claims' id, email, name and picture |
| AuthRoutes.ExpiredTokenRejected | routes/auth.js:156-165 | for any verification outcome and clock, when the verifier hands over only claims whose `exp` lies after the clock: a 200 from `/auth/me` means the claims are unexpired, and an expiry error gives 401 |
| AuthMiddleware.AuthAttachesOnlyUnexpired | middleware/auth.js:10-34 | under the same verifier promise, the claims `requireAuth` or `optionalAuth` attach to the request are unexpired |
| AuthRoutes.SessionTokenRoundTrip | routes/auth.js:121-200 | if the verifier returns the signed fields of a token the signer produced, then `/auth/me` with the token from a successful callback answers 200 with exactly the user the callback reported |
| AuthRoutes.Logout | routes/auth.js:202-222 | always 200 with `result:true` and "Logout successful. Please discard your token."; it takes no token and leaves the cookies alone |
| ItemsController.MaxIdIsMax | controllers/items.js:3-5 | `MaxId`, the `Math.max` over the ids of a non-empty list, bounds every id and belongs to some item |
| ItemsController.LastId | controllers/items.js:3-5 | `getLastId`: 0 on an empty list; otherwise the largest id (`MaxId`), which bounds every id and belongs to some item |
| ItemsController.NewId | controllers/items.js:7-9 | the new id is 1 on an empty list, larger than every existing id, and one more than the largest |
| ItemsController.IndexOf | controllers/items.js:23-25 | -1 exactly when no item has the id; otherwise the index of the first item with it |
| ItemsController.FirstWithId | controllers/items.js:19-21 | nothing exactly when no item has the id; otherwise the item at the first matching index |
| ItemsController.NewItem | controllers/items.js:27-31 | the new item has the data's name and description; its id is the fresh id, or the body's own `id` when there is one |
| ItemsController.Renamed | controllers/items.js:42-45 | only the name and description of the item at that position change; its id and position stay, and every other item is untouched |
| ItemsController.Removed | controllers/items.js:55 | splice(k, 1): one shorter, the items before k unchanged, the items after shifted down by one in their order |
| ItemsController.AddedItemFound | controllers/items.js:27-34 | an item added without an `id` is found first under its id, at the end of the list |
| ItemsController.AddKeepsDistinct | controllers/items.js:27-34 | adding without an `id` keeps ids distinct |
| ItemsController.ClientIdCanDuplicate | controllers/items.js:28-31 | a body `id` already in use is taken as it is, so two items then share it |
| ItemsController.RenameKeepsIds | controllers/items.js:36-46 | an update keeps every id where it was, so distinct ids stay distinct and the item is still found at the same place |
| ItemsController.RemoveKeepsDistinct | controllers/items.js:49-58 | deletion keeps distinct ids distinct |
| ItemsController.RemoveIsOneLess | controllers/items.js:55 | deletion removes exactly one occurrence of the removed item, as multisets |
| ItemsController.RemoveFirstMatchErasesId | controllers/items.js:49-58 | with distinct ids, no item with the deleted id remains |
| ItemsController.ItemStore.constructor | controllers/items.js:1 | the store starts with the given contents |
| ItemsController.ItemStore.GetLastId | controllers/items.js:3-5 | the loop returns 0 on an empty list, otherwise an id that bounds every id and belongs to some item |
| ItemsController.ItemStore.GetNewId | controllers/items.js:7-9 | 1 on an empty list, otherwise larger than every id |
| ItemsController.ItemStore.GetAllItems | controllers/items.js:15-17 | the list itself, every item in its order |
| ItemsController.ItemStore.FindItemPositionById | controllers/items.js:23-25 | the loop returns -1 exactly when no item has the id, otherwise the first matching index |
| ItemsController.ItemStore.GetItemById | controllers/items.js:19-21 | the loop returns the first item with the id, or nothing exactly when there is none |
| ItemsController.ItemStore.AddItem | controllers/items.js:27-34 | appends exactly one item at the end and returns it; earlier items are unchanged; without an `id` in the data its id exceeds every earlier id and distinct ids stay distinct |
| ItemsController.ItemStore.UpdateItem | controllers/items.js:36-47 | an unknown id returns nothing and leaves the list unchanged; otherwise the first match is renamed in place (same id, same position, others untouched) and returned; distinct ids stay distinct |
| ItemsController.ItemStore.DeleteItem | controllers/items.js:49-58 | false and no change for an unknown id; otherwise the first match is spliced out, the length drops by one and the order of the rest is kept; distinct ids stay distinct and the id is then gone |
| ItemRoutes.ValidateBody | routes/items.js:48-76 | a body passes exactly when it has both `name` and `description`; otherwise 400, naming `name` first |
| ItemRoutes.ItemReply | routes/items.js:100-128 | for GET /items/:id and PUT /items/:id: 404 "Item not found." exactly when the store answered nothing; otherwise 200 with `data:[item]` and the endpoint's message |
| ItemRoutes.DeleteReply | routes/items.js:130-141 | 404 exactly when nothing was deleted; otherwise 200 with `data:[{id}]` |
| ItemRoutes.GetItems | routes/items.js:96-98 | 200, `result:true`, "Items retrieved successfully." and the whole list |
| ItemRoutes.GetItem | routes/items.js:100-108 | 404 exactly when no item has the id; otherwise 200 with the first item with it |
| ItemRoutes.PostItem | routes/items.js:110-114 | 400 and no change for an incomplete body; otherwise the store appends one item, and the reply is 201 with `data:[newItem]` |
| ItemRoutes.PutItem | routes/items.js:116-128 | 400 for an incomplete body, 404 for an unknown id (no change in either case); otherwise the first match is renamed and the reply is 200 with it |
| ItemRoutes.DeleteItem | routes/items.js:130-141 | 404 and no change for an unknown id; otherwise the first match is spliced out and the reply is 200 with `data:[{id}]` |

## Left out

- Randomness: the login state is an input. Its entropy, and the fact that a new state differs
  from the previous one, are not modelled.
- Cryptography and the network: JWT signing and verification, the Google ID-token signature
  check and the code exchange are oracles. Library-side time checks are not derived from this code:
  an expired session token is one kind of `JwtError`, and the 24-hour `exp` is set by the signer
  from `expiresIn`.
- AuthRoutes.ExpiredTokenRejected: expiry is decided inside `request.jwtVerify()`, which is not
  part of this model. The lemma assumes that the verifier honours `exp` (`HonoursExpiry`) and proves
  only what the routes and guards do with its answer. No clock comparison is derived from this code.
- ItemsController.NewId: ids are exact unbounded integers, but JavaScript numbers are doubles. The
  freshness result holds only when every id is a safe integer (|id| < 2^53, hence also below 1e21).
  Outside that range `getLastId() + 1` can round back onto an existing id (9007199254740992 + 1),
  `parseInt` reads an id of 1e21 or more from its exponent form ("1e+21" gives 1), and
  `Math.max(...)` over a very long list throws `RangeError`. None of this is modelled.
- ItemsController.ItemStore.AddItem: its fresh-id and distinct-ids clauses rest on the same
  safe-integer assumption as `NewId`.
- ItemsController.AddKeepsDistinct: holds only under the same safe-integer assumption as `NewId`.
- ItemsController.ItemStore.GetLastId: takes ids as exact integers, with the same assumption and
  the same unmodelled `RangeError` as `NewId`.
- ItemsController.NewItem: a body `id` is taken to be an integer. The POST body schema declares no
  `id`, so an `id` of any JSON type passes and the spread stores it as given. This also affects
  `ItemsController.AddedItemFound`, `ItemsController.ItemStore.AddItem` and `ItemRoutes.PostItem`.
  The model does not capture what the source then does:
  - A body `id` of "x" makes `parseInt` give NaN, so `Math.max` gives NaN. Every later item then
    gets id NaN, and the `===` lookups never find it.
  - A body `id` of 2.5 or "7" is counted by `getLastId` but never matched by a lookup.
- AuthRoutes.SessionTokenRoundTrip: holds only under a stated assumption about the oracles, namely
  that verifying a freshly signed token returns the signed fields.
- Rate limiting: the source only declares a settings object and registers it nowhere. No counter
  or window is modelled.
- Authentication on item routes: no pre-handler is attached to them, so none is modelled.
- Where the routes are registered (the server registers only the item routes), the Fastify
  plugins, Swagger, server start-up, environment configuration and logging.
- `resetItems`: it re-binds to the cached module export, which is the very list that is mutated.
  The item model module with the initial contents is not part of this model. The store's
  constructor takes the initial list.
- ItemRoutes.GetItem: models only the first reply of `GET /items/:id`. On a miss the handler sends a
  second reply after the 404, and the client sees only the first.
- Aliasing: `getItemById`, `updateItem`, `addItem` and `getAllItems` return references into the
  live list. `addItem` returns the very object it pushed, so a later rename changes the value the
  caller holds. The model returns values.
- Extra body properties beyond `id`, `name` and `description`: these would be copied into a new item
  by the spread, and they are dropped here.
- Schema type coercion and the exact wording of the framework's validation message: the model
  keeps only the 400 and the missing property.
- Missing or non-string claims in a Google payload or a session token: all claims are strings
  here. Undefined fields and JSON serialisation are not modelled.
- Array-valued (repeated) query parameters.
