# Email dispatch pipeline — a Dafny model

This project models the core of a multi-tenant email service. Its backend
accepts send requests over HTTP, puts them on a Redis list, and runs a
background consumer. The consumer takes events off the list and drops mail
to throwaway domains. It then checks the tenant's daily quota, which for a
new tenant follows a warm-up ramp. Last, it calls the mail gateway and
either requeues the event or drops it. Around that pipeline the model also
covers:

- tenant lookup by email domain;
- the bearer-header checks of the token middlewares;
- the order of checks in the OAuth callback;
- the `/send` and `/quota` routes;
- the single-page app's navigation guard;
- the app's authentication store.

Modules, one per source file (plus one for the string operations they share):

- `JsText` (`js_text.dfy`): JavaScript's `split` with a one-character
  separator, ASCII `toLowerCase`, and the truthiness of a string that may be
  missing. `split(c)[1]` is the text between the first `c` and the next one,
  not the whole rest of the string. The model keeps that distinction.
- `QueueStore` (`queue.dfy`): the class `EmailQueue`. It holds the Redis
  list `email:queue` in Redis order: `lPush` prepends and `rPop` takes the
  last element. It also holds the counters and their expiries. `Pending()`
  reads the list from the far end, so FIFO order is stated on it. Every
  store call takes a `fails` flag. A failing call changes nothing and
  returns `StoreError`, the error the source rethrows.
- `EmailProcessor` (`email_processor.dfy`): the throwaway filter, the
  warm-up formula, `getDailyQuota` and `incrementDailyQuota` as methods on
  the store, and one pass of the consumer loop (`ProcessOnce`). Several
  things are inputs: the tenant directory (a function from tenant id to
  lookup result), the gateway's answer, the clock (`isoNow`, `nowMs`) and
  which store calls fail (`Faults`).
- `AuthController` (`auth_controller.dfy`) and `EmailController`
  (`email_controller.dfy`): the route logic as functions, plus `/send` as a
  method on the store. `jwt.verify` and `jwt.sign` are function parameters.
- `Router` (`router.dfy`): the `'/'` redirect and `beforeEach` as pure
  decisions.
- `AuthStore` (`auth_store.dfy`): the class `AuthState` with its three
  fields, the three mutations and the actions.

Two behaviours of the code are easy to miss.
The model follows the code in both:

- Requeues forced by an exhausted quota are never capped. The code
  requeues the event with `retryCount + 1` every time
  (backend/src/services/emailProcessor.ts:97-102), and only a failed send
  checks `retryCount < 3` (line 122). Each throttle still adds 1 to that
  same count, so throttles use up the three retries of failed sends. An
  event throttled three times is dropped on its first failed send.
  `ProcessOnce`, `ThrottlesNeverDrop` and `ThrottlesConsumeBudget` state
  this.
- The stored counter `"0"` is truthy. The first quota read of a day
  creates the counter at 0 and returns the warm-up ceiling. Every later
  read that day returns `DAILY_QUOTA - count`
  (`WarmupAppliesOnlyToFirstRead`). So the warm-up ramp limits only the
  first read of each day.

## Model

| member | source | states |
|---|---|---|
| `QueueStore.EmailQueue.AddToQueue` | backend/src/services/queue.ts:31-46 | on success the pending sequence grows by exactly one record, placed after every event already pending; that record has the caller's six fields, `retryCount` 0 and the given time, whatever the caller supplied; counters untouched; on a store error nothing changes and the error is returned |
| `QueueStore.EmailQueue.GetNextEmail` | backend/src/services/queue.ts:48-62 | returns the oldest pending event and removes exactly that one (the list shrinks by one); on an empty queue returns `null` and changes nothing; a store error is returned with nothing changed |
| `QueueStore.EmailQueue.RequeueEmail` | backend/src/services/queue.ts:64-80 | on success appends one record behind everything pending, with the same payload, `retryCount` = old count + 1 (missing reads as 0) and a fresh timestamp; a store error is returned with nothing changed |
| `QueueStore.EmailQueue.Get` | backend/src/services/queue.ts:83-90 | returns the value stored under the key, or none when the key is absent; a store error is returned |
| `QueueStore.EmailQueue.Set` | backend/src/services/queue.ts:92-99 | stores the value under the key (a later `Get` returns it) and drops any expiry the key had; no other key changes |
| `QueueStore.EmailQueue.Expire` | backend/src/services/queue.ts:101-108 | gives an existing key the lifetime; a missing key is unaffected; a non-positive lifetime deletes the key |
| `QueueStore.EmailQueue.Incr` | backend/src/services/queue.ts:110-117 | the key's count becomes old count (0 if absent) + 1, its expiry is kept, and every other key keeps its value |
| `QueueStore.ReversedPush` | backend/src/services/queue.ts:34 | pushing at the list head (`lPush`) appends at the far end of the pending order |
| `QueueStore.ReversedPop` | backend/src/services/queue.ts:51 | popping the list tail (`rPop`) yields the first pending event and leaves the rest in order |
| `JsText.IndexOf` | backend/src/services/emailProcessor.ts:37 | the position of the first separator: every earlier character differs, and `|s|` exactly when there is none |
| `JsText.Split` | backend/src/services/emailProcessor.ts:37 | `split` yields at least one field and no field contains the separator |
| `JsText.JoinSplit` | backend/src/services/emailProcessor.ts:37 | joining the fields of `split` with the separator gives back the original string |
| `JsText.SecondField` | backend/src/controllers/auth.ts:47 | `split(c)[1]` is defined exactly when the string contains `c`, and never contains `c` |
| `JsText.SecondFieldOf` | backend/src/controllers/auth.ts:47 | for `a + c + b + tail`, with no `c` in `a` or `b` and `tail` empty or starting with `c`, the second field is exactly `b` |
| `JsText.Lower` | backend/src/services/emailProcessor.ts:37 | lower-casing keeps the length, turns each upper-case ASCII letter into the same letter in lower case, and keeps every other character |
| `JsText.LowerIdempotent` | backend/src/services/emailProcessor.ts:37 | lower-casing an already lower-cased string changes nothing |
| `EmailProcessor.ThrowawayIff` | backend/src/services/emailProcessor.ts:15-39 | an address is rejected iff the lower-cased text between its first `@` and the next `@` (or the end) is exactly one of the five listed domains |
| `EmailProcessor.IsThrowaway` | backend/src/services/emailProcessor.ts:36-39 | only an address containing `@` can be rejected (`undefined \|\| ''` is in no list); `ThrowawayIff` gives the exact condition |
| `EmailProcessor.ThrowawayExample` | backend/src/services/emailProcessor.ts:36-39 | `x@TempMail.com` is rejected: the check ignores case |
| `EmailProcessor.SubdomainExample` | backend/src/services/emailProcessor.ts:36-39 | `x@x.tempmail.com` is not rejected: the match is exact, not by suffix |
| `EmailProcessor.WarmupQuota` | backend/src/services/emailProcessor.ts:55-58 | the warm-up ceiling never exceeds `DAILY_QUOTA`, and for a non-negative age (with `START <= DAILY`) never falls below `WARMUP_START` |
| `EmailProcessor.WarmupAtStart` | backend/src/services/emailProcessor.ts:55-58 | at 0 days since creation the warm-up quota equals `WARMUP_START` |
| `EmailProcessor.WarmupAtEnd` | backend/src/services/emailProcessor.ts:55-58 | from `WARMUP_DAYS` days on it equals `DAILY_QUOTA` (for `0 <= START <= DAILY`) |
| `EmailProcessor.WarmupMonotone` | backend/src/services/emailProcessor.ts:55-58 | the warm-up quota never decreases with age and stays between `WARMUP_START` and `DAILY_QUOTA` |
| `EmailProcessor.WarmupExample` | backend/src/services/emailProcessor.ts:10-58 | with the defaults 100/10/30, a tenant 15 days old gets 55 |
| `EmailProcessor.DaysSince` | backend/src/services/emailProcessor.ts:51-53 | the age in whole days, rounded down: `days * 86400000 <= now - created < (days + 1) * 86400000` |
| `EmailProcessor.Today` | backend/src/services/emailProcessor.ts:43 | the date is the part of the ISO timestamp before its first `T`: a prefix with no `T`, followed by `T` unless it is the whole string |
| `EmailProcessor.QuotaKeyInjective` | backend/src/services/emailProcessor.ts:43 | the key `quota:{tenantId}:{date}` is injective: for dates without `:`, equal counter keys mean the same tenant and the same date |
| `EmailProcessor.DailyQuota` | backend/src/services/emailProcessor.ts:41-70 | a positive quota is only granted when the counter read succeeded, and (for `0 <= START <= DAILY` and non-negative counts) the quota never exceeds `DAILY_QUOTA` |
| `EmailProcessor.QuotaFailClosed` | backend/src/services/emailProcessor.ts:66-69 | a failed read, a failed directory lookup, or a failed counter write or expire yields quota 0 |
| `EmailProcessor.QuotaWithCounter` | backend/src/services/emailProcessor.ts:65 | once today's counter exists the quota is `DAILY_QUOTA - count`, the same for every tenant age |
| `EmailProcessor.GetDailyQuota` | backend/src/services/emailProcessor.ts:41-70 | the quota returned by `getDailyQuota`; the counter is created at 0 only when it was absent, the tenant was found and the write succeeded; the 24-hour expiry is set only when `expire` also succeeded; an unknown tenant gets `WARMUP_START` and no counter |
| `EmailProcessor.IncrementDailyQuota` | backend/src/services/emailProcessor.ts:72-79 | exactly one increment of `quota:{tenantId}:{date}`; a store error is swallowed and changes nothing |
| `EmailProcessor.WarmupAppliesOnlyToFirstRead` | backend/src/services/emailProcessor.ts:46-65 | the first read of a day for a known tenant returns the warm-up quota and creates the counter; after `n` sends the same day the quota is `DAILY_QUOTA - n`, whatever the tenant's age |
| `EmailProcessor.ProcessOnce` | backend/src/services/emailProcessor.ts:81-130 | one loop pass. Empty queue or failed pop: nothing changes. Otherwise it takes the oldest event. A throwaway recipient: dropped, with no quota read, no counter write and no requeue. Quota <= 0: requeued with count + 1 at any count, no send. Successful send: today's counter for that tenant is incremented once, no requeue. Failed send: requeued iff the prior count (missing = 0) is below 3, otherwise dropped. A failing requeue loses the event. The gateway is called exactly when the quota is positive |
| `EmailProcessor.AfterFailuresFrom` | backend/src/services/emailProcessor.ts:120-125 | `n` consecutive failed sends from count `r` (0..3) keep the event iff `r + n <= 3`, with count `r + n` and the same payload |
| `EmailProcessor.FreshEventFailureBudget` | backend/src/services/emailProcessor.ts:120-125 | a fresh event survives three failed sends and is dropped on the fourth |
| `EmailProcessor.ThrottlesNeverDrop` | backend/src/services/emailProcessor.ts:97-102 | after `k` quota-exhausted passes the event's count is exactly `k` higher and its payload unchanged; nothing caps it |
| `EmailProcessor.ThrottlesConsumeBudget` | backend/src/services/emailProcessor.ts:97-125 | throttles and failed sends share one budget: a fresh event throttled `k` times survives `n >= 1` further failed sends iff `k + n <= 3`, so after three throttles the first failed send drops it |
| `AuthController.FindByDomain` | backend/src/controllers/auth.ts:48-53 | returns a match iff some entry has the domain, and then the first such entry in iteration order |
| `AuthController.FindTenantByEmail` | backend/src/controllers/auth.ts:46-54 | a tenant is found iff some configured domain equals, case-sensitively, the second `@`-field of the address (so never without `@`), and then it is the first such entry in iteration order |
| `AuthController.CheckHeader` | backend/src/controllers/auth.ts:58-68 | "no token" exactly when the header is missing or empty; "bad format" exactly when `split(' ')[1]` is missing or empty (for instance no space, or `"Bearer "`); otherwise the token is exactly `split(' ')[1]`, non-empty and without a space |
| `AuthController.BearerHeader` | backend/src/controllers/auth.ts:64 | `Bearer <token>` passes the checks with exactly that token |
| `AuthController.VerifyToken` | backend/src/controllers/auth.ts:57-86 | a missing header gives 401 "No token provided"; a header with no second part gives 401 "Invalid token format"; a well-formed token that `verify` rejects gives 401 "Invalid token"; one it accepts reaches `next` with `id`, `tenantId` and `email` = the decoded `id`, `tenantId` and `userId`, and `next` is reached in no other case |
| `AuthController.OAuthCallback` | backend/src/controllers/auth.ts:139-194 | a missing user or email redirects with `auth_failed`, then an unmatched domain with `invalid_domain`, both before anything is stored; with a matched tenant, a failing store redirects with `server_error` and a working one stores the credential; a stored credential carries the matched tenant, the email and provider `google`, and the redirect carries the token signed over (id, tenant, email) |
| `AuthController.IssuedTokenVerifies` | backend/src/controllers/auth.ts:177-189 | the token at the end of a successful callback's redirect, sent as `Bearer <token>`, passes `verifyToken` and gives back the user's id, the matched tenant and the email |
| `EmailController.VerifyToken` | backend/src/controllers/email.ts:10-31 | every rejection is the auth middleware's rejection, with the same 401 status and message ("No token provided", "Invalid token format", "Invalid token"); it reaches `next` exactly when that one does, with the token's `id` |
| `EmailController.PostSend` | backend/src/controllers/email.ts:34-64 | status 404 exactly for a missing user and 500 exactly for a lookup or store error, with nothing queued in either case; otherwise one event is queued with `fromAddress` = the user's email, `tenantId` defaulting to `"tenant"`, `userId` defaulting to `"user"`, `retryCount` 0 |
| `EmailController.EmptyTenantQueuedButNotReported` | backend/src/controllers/email.ts:47-54 | `??` defaults only a missing id: a user whose `tenantId` is empty gets mail queued under the empty tenant, while `/quota` answers 400 for the same user |
| `EmailController.GetQuota` | backend/src/controllers/email.ts:67-102 | status 404 exactly for a missing user; 400 exactly for a user with a missing or empty `tenantId`; 500 exactly for a failed lookup or counter read; otherwise `used + remaining == dailyQuota`, and `used` is today's count (0 when there is no counter) |
| `EmailController.QuotaRouteAgreesWithDispatcher` | backend/src/controllers/email.ts:85-91 | with a counter, `/quota` reports the dispatcher's remaining quota; without one, it reports the full daily quota |
| `Router.RootRedirect` | frontend/src/router/index.ts:10-13 | `/` goes to `/send-email` iff authenticated, to `/login` iff not |
| `Router.Guard` | frontend/src/router/index.ts:40-80 | `/auth/callback` always proceeds. Otherwise it redirects to `/login` iff auth is required and the user is not authenticated. It redirects to `/send-email` iff authenticated and either going to `/login` or to a route not requiring auth. It proceeds in exactly the remaining cases |
| `Router.GuardIdempotent` | frontend/src/router/index.ts:15-80 | any redirect target of the guard is accepted by the guard on arrival (only `/send-email` requires auth) |
| `Router.OnlySendEmailNeedsLogin` | frontend/src/router/index.ts:15-33 | of the app's routes only `/send-email` requires auth: an unauthenticated user is redirected (to `/login`) exactly when going there |
| `Router.RootLandsOnAcceptedRoute` | frontend/src/router/index.ts:10-13 | the root's redirect target is accepted by the guard |
| `AuthStore.AuthState.constructor` | frontend/src/store/auth.ts:20-24 | the initial state keeps the stored token but has no user and is not authenticated |
| `AuthStore.AuthState.SetToken` | frontend/src/store/auth.ts:27-30 | changes only `token` |
| `AuthStore.AuthState.SetUser` | frontend/src/store/auth.ts:31-34 | sets `user`, makes `isAuthenticated` true, keeps `token` |
| `AuthStore.AuthState.ClearAuth` | frontend/src/store/auth.ts:35-40 | token and user cleared, not authenticated |
| `AuthStore.AuthState.Login` | frontend/src/store/auth.ts:44-65 | token set, authenticated, user is the placeholder with id `temp`, and that user is returned |
| `AuthStore.AuthState.CheckAuth` | frontend/src/store/auth.ts:67-90 | without a token it returns null and changes nothing; a fetched profile becomes the user; a failed request clears the state |
| `AuthStore.AuthState.Logout` | frontend/src/store/auth.ts:92-102 | always ends in the cleared state, whether or not the request fails |

Every method of `AuthState` also keeps `isAuthenticated` true exactly when
a user is set (`Valid`). Every method of `EmailQueue` keeps expiries only on
existing keys.

## Left out

- Redis connection handling (connect and disconnect around every call, the
  client's event handlers) and the second Redis client opened by `/quota`.
  The store is in-memory state and a failure is a `fails` input.
- JSON encoding of queued events. Records are stored as they are.
- Counter values are integers. The source stores decimal strings and
  parses them with `parseInt`. Its only writers are `set(key, '0')` and
  `incr`, so the strings are always decimal numbers.
- Key expiry as time passes. `Expire` records the lifetime. Nothing in
  the model ages a key or deletes it when the lifetime runs out.
- The mail gateway (the Brevo client, the sender name taken from
  `fromAddress`, the request object). Its success or failure is the
  `sendOk` input.
- `User.findOne`, `User.findById`, `Date.now()`, `toISOString()` and the
  1-second sleep on an empty queue. They are inputs: a directory function,
  a lookup result, `nowMs` and `isoNow`.
- `EmailProcessor.ProcessOnce` uses one `isoNow` for both the quota read
  and the increment. The source reads the clock twice, so across midnight
  it could read one day's counter and increment the next day's. That case
  is not modelled.
- The endless `while (true)` loop, and several consumers running at once.
  The read-then-increment of the quota is not atomic in the source. The
  model covers one pass by one consumer.
- `jwt.verify`, `jwt.sign`, Passport and the Google OAuth strategy. They
  are function parameters or are not modelled. A `jwt.sign` that throws
  after the credential is stored is not modelled.
- `JsText.Lower` lower-cases ASCII letters only. JavaScript's
  `toLowerCase` also maps non-ASCII letters.
- `EmailProcessor.WarmupQuota` requires `WARMUP_DAYS > 0`. A zero
  divisor, non-numeric settings (NaN) and floating-point limits beyond
  2^53 are not modelled.
- Missing request-body fields (`toAddress`, `subject`, `body` are not
  validated by `/send`). They are modelled as strings.
- The `/me` route, the `/:provider` start of OAuth and the backend
  `/logout` route are not part of this model. `/logout` only answers a
  fixed message.
- The store getters (`isAuthenticated`, `currentUser`, `token`). They
  only read the fields. The axios calls and `localStorage` in the
  frontend store are outcomes passed in (`profile`, `requestFails`).
- vue-router itself: route matching, the `from` route, query strings,
  logging. `Router.RequiresAuth` gives the `requiresAuth` flag of the
  app's routes, and the guard takes that flag as input.
- Bootstrapping code (backend/src/index.ts, frontend/src/main.ts),
  Mongoose schemas, and SDK type declarations.
