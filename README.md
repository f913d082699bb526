# Tier-based authorisation core of the EA FC subscription API, in Dafny

The API gives clients API keys tied to a subscription tier (Free, Basic, Premium),
authenticates every protected request by its `x-api-key` header, rate-limits it by the
key's tier, and gates two data routes by tier. This project models that core and proves
what it does:

- `Types` (types.dfy): the three tiers and their string values, the `ApiKey` record
  (every field mandatory except `lastUsed`, an `Option`), the rate-limit config (exactly
  a window length and a maximum), plans, matches and player statistics.
- `Subscriptions` (subscriptions.dfy): the `SUBSCRIPTION_PLANS` catalog, with the
  `RATE_LIMIT_*` environment overrides as optional naturals.
- `KeyStore` (key_store.dfy): the key store's contents as a map value, the key format
  `eafc_<tier>_<32 hex digits>` and its parser, and one function per store operation.
  Lemmas cover whole runs of operations: no key disappears, no count decreases, an
  inactive key never becomes active again, and every record stays filed under its own key.
- `ApiKeys` (api_key_service.dfy): class `ApiKeyService` with the map field and the
  Map's insertion order. `GenerateApiKey`, `ValidateApiKey`, `IncrementRequestCount`,
  `DeactivateApiKey`, `GetApiKeyInfo` and `UpgradeSubscription` are each proved against the
  matching `KeyStore` function; `GetAllApiKeys` is specified directly over the map and the order.
- `Auth` (auth.dfy): `authenticateApiKey` as a pure decision plus a method on the store.
- `RateLimiter` (rate_limiter.dfy): the identity key, the Free fallback, the limiter
  options per tier, the 429 body and the upgrade hint.
- `Proclubs` (proclubs.dfy): `/matches` (a prefix of the mock list), `/matches/:matchId`
  (first match or 404) and the two tier gates.
- `SubscriptionRoutes` (subscription_routes.dfy): `/plans`, `/subscribe/free` (a method
  on the store) and the ordered checkout checks that run before the payment call.
- `Pipeline` (pipeline.dfy): the middleware order of the protected routes. The rate
  library's window counter is a parameter `admit`.
- `Decimal` (decimal.dfy): the decimal text of a natural, as a template literal renders
  it, with its inverse.

Inputs the source takes from its environment are parameters:
- the UUID generator's output is `uuid`;
- the clock reading is `now`;
- the parsed `?limit` query value is an `Option<int>`, where `None` stands for NaN;
- the environment overrides are a `RateLimitEnv`.

Behaviour of the code worth knowing:
- `dynamicRateLimiter` builds a new limiter for every request
  (src/middleware/rateLimiter.ts:45-53), and the code keeps no window state of its own.
- The 403 for player statistics does not name the caller's tier
  (src/routes/proclubs.ts:100-107). Only the analytics 403 carries `currentTier`.
- The Free tier's upgrade hint names both Basic and Premium
  (src/middleware/rateLimiter.ts:35-39).
- The plan catalog is a constant table with an entry for every tier
  (src/models/subscriptions.ts:3-52). No code checks it at startup.

## Model

| member | source | states |
|---|---|---|
| `Types.TierString` | src/models/types.ts:1-5 | each tier's string value is non-empty lower-case text, so the Free fallback of the rate limiter never applies to a present key |
| `Types.ParseTier` | src/models/types.ts:1-5 | a string names tier `t` exactly when it is `t`'s string value (both directions); this is the enum membership test |
| `Types.AllTiersComplete` | src/models/types.ts:1-5 | there are exactly three tiers, each listed once in `Object.values` order |
| `Types.TierStringInjective` | src/models/types.ts:2-4 | distinct tiers have distinct string values, so the value embedded in a key identifies the tier |
| `Decimal.NatToString` | src/routes/subscription.ts:17 | a rendered limit is non-empty, all digits, and has no leading zero unless it is zero |
| `Decimal.ParseNatToString` | src/routes/subscription.ts:17 | reading the rendered digits back gives the rendered number |
| `Decimal.NatToStringInjective` | src/routes/subscription.ts:17 | different numbers render as different texts |
| `Subscriptions.DefaultMaxRequests` | src/models/subscriptions.ts:10-40 | without overrides the limits are 10 (Free), 100 (Basic) and 1000 (Premium) |
| `Subscriptions.MaxRequests` | src/models/subscriptions.ts:10-40 | an override, when present, replaces the default; otherwise the default holds |
| `Subscriptions.Features` | src/models/subscriptions.ts:12-50 | Free lists 3 features, Basic 5 with "Player statistics" second, Premium 7 with "Advanced analytics" fourth; each of those two names appears only in its own plan |
| `Subscriptions.PriceCents` | src/models/subscriptions.ts:6-36 | a plan's price is 0 exactly for Free |
| `Subscriptions.PlanFor` | src/models/subscriptions.ts:3-52 | every tier has a plan filed under that same tier, with a 60 000 ms window, the tier's limit, currency USD, and price 0 exactly for Free |
| `Subscriptions.DefaultLimitsRiseWithTier` | src/models/subscriptions.ts:10-40 | without overrides a higher tier has a strictly higher request limit |
| `Subscriptions.SameWindowForAllTiers` | src/models/subscriptions.ts:9-39 | all tiers share the one-minute window whatever the overrides |
| `KeyStore.MakeKey` | src/services/apiKeyService.ts:8 | an issued key starts with `eafc_`, ends with `_` and the UUID, and has the tier's value between them |
| `KeyStore.ParseKey` | src/services/apiKeyService.ts:8 | whatever the parser accepts is exactly `eafc_` + tier + `_` + 32 hex digits for the tier and UUID it returns |
| `KeyStore.ParseMakeKey` | src/services/apiKeyService.ts:8 | an issued key parses back to the tier and UUID it was made from |
| `KeyStore.KeyDeterminesTier` | src/services/apiKeyService.ts:8 | two issued keys are equal only if tier and UUID are, so the key's prefix fixes the tier it was issued with |
| `KeyStore.NewRecord` | src/services/apiKeyService.ts:7-16 | an issued record carries the given tier and userId, the issuing time, `isActive` true, count 0 and no `lastUsed` |
| `KeyStore.Issue` | src/services/apiKeyService.ts:17 | storing a record adds its key, makes the key map to it, and leaves every other entry unchanged |
| `KeyStore.Validate` | src/services/apiKeyService.ts:21-27 | the answer is None exactly when the key is absent or inactive; otherwise it is the stored record |
| `KeyStore.Lookup` | src/services/apiKeyService.ts:48-50 | the stored record is returned whether active or not; None exactly for an unknown key |
| `KeyStore.RecordUse` | src/services/apiKeyService.ts:29-36 | a known key's count rises by exactly 1 and its `lastUsed` is set; nothing else changes; an unknown key changes nothing |
| `KeyStore.Deactivate` | src/services/apiKeyService.ts:38-46 | the result is true exactly when the key exists; only that record's `isActive` is cleared; afterwards validation refuses the key |
| `KeyStore.ChangeTier` | src/services/apiKeyService.ts:56-64 | the result is true exactly when the key exists; only that record's tier changes; an unknown key changes nothing |
| `KeyStore.ApplyEvolves` | src/services/apiKeyService.ts:4-65 | no operation removes a key, lowers a count, changes key, owner or creation time, or reactivates a key (issues assumed fresh) |
| `KeyStore.ApplyKeepsKeysMatch` | src/services/apiKeyService.ts:7-64 | every operation keeps each record filed under its own key |
| `KeyStore.RunEvolves` | src/services/apiKeyService.ts:4-65 | over any run of operations with fresh issues, `isActive` only goes true to false and counts never decrease |
| `KeyStore.RunKeepsKeysMatch` | src/services/apiKeyService.ts:4-65 | over any run of operations every record stays filed under its own key |
| `KeyStore.DeactivatedStaysInvalid` | src/services/apiKeyService.ts:21-46 | once deactivated, a key is refused by validation after any later run of operations with fresh issues |
| `ApiKeys.ApiKeyService.constructor` | src/services/apiKeyService.ts:5 | the store starts empty |
| `ApiKeys.ApiKeyService.GenerateApiKey` | src/services/apiKeyService.ts:7-19 | returns the new record, stores it under its key as `Map.set` does, and appends a new key to the insertion order |
| `ApiKeys.ApiKeyService.ValidateApiKey` | src/services/apiKeyService.ts:21-27 | answers as `KeyStore.Validate` on the current map |
| `ApiKeys.ApiKeyService.IncrementRequestCount` | src/services/apiKeyService.ts:29-36 | the new map is `KeyStore.RecordUse` of the old one; the order is unchanged |
| `ApiKeys.ApiKeyService.DeactivateApiKey` | src/services/apiKeyService.ts:38-46 | the result and new map are `KeyStore.Deactivate` of the old map |
| `ApiKeys.ApiKeyService.GetApiKeyInfo` | src/services/apiKeyService.ts:48-50 | answers as `KeyStore.Lookup` on the current map |
| `ApiKeys.ApiKeyService.GetAllApiKeys` | src/services/apiKeyService.ts:52-54 | returns each stored record once, in insertion order; the result holds exactly the stored values |
| `ApiKeys.ApiKeyService.UpgradeSubscription` | src/services/apiKeyService.ts:56-64 | the result and new map are `KeyStore.ChangeTier` of the old map |
| `Auth.Authenticate` | src/middleware/auth.ts:14-36 | a missing or empty header gets the "API key is required" 401 and an absent or inactive key gets "Invalid or inactive API key."; either way the store is unchanged; success happens exactly for an active key, counts it once, and attaches the updated stored record |
| `Auth.AuthenticateApiKey` | src/middleware/auth.ts:9-37 | the method on the shared store gives the answer and new map of `Auth.Authenticate` |
| `Auth.UnknownAndInactiveLookAlike` | src/middleware/auth.ts:24-31 | a never-issued key and a deactivated key get identical answers, and neither changes the store |
| `Auth.AuthenticateEvolves` | src/middleware/auth.ts:14-36 | authentication never removes a key, lowers a count or reactivates a key |
| `Auth.AuthenticateTimesCounts` | src/middleware/auth.ts:24-36 | `n` authentications with an active key each succeed, raise its count by exactly `n` in total, and touch no other key |
| `Auth.IssuedKeyCountsEveryUse` | src/middleware/auth.ts:34-36 | a freshly issued key authenticated `n` times reports a count of `n` |
| `RateLimiter.IdentityKey` | src/middleware/rateLimiter.ts:21-24 | the identity is the key if non-empty, else the IP if non-empty, else `unknown`; it is never empty |
| `RateLimiter.LimitExceededMessage` | src/middleware/rateLimiter.ts:15 | the message names the tier, and the digits between its fixed texts read back as the limit |
| `RateLimiter.EffectiveTier` | src/middleware/rateLimiter.ts:27 | the tier is the attached key's tier, or Free when no key is attached |
| `RateLimiter.CreateRateLimiter` | src/middleware/rateLimiter.ts:7-19 | the limiter's window and max are exactly the tier plan's window (one minute) and limit |
| `RateLimiter.DynamicRateLimiter` | src/middleware/rateLimiter.ts:45-53 | the limiter used is the one for the effective tier; without a key it enforces the Free limit |
| `RateLimiter.UpgradeHint` | src/middleware/rateLimiter.ts:35-39 | Free gets "Upgrade to Basic or Premium…", Basic "Upgrade to Premium…", Premium "You are already on the highest tier", and each hint belongs to exactly one tier |
| `RateLimiter.Handler` | src/middleware/rateLimiter.ts:25-41 | the 429 body names the effective tier, that plan's `maxRequests` as `limit` and in its message, and its upgrade hint |
| `RateLimiter.HandlerReportsEnforcedLimit` | src/middleware/rateLimiter.ts:7-41 | the limit and tier the 429 body reports are the ones the limiter was configured with |
| `RateLimiter.UpgradeHintInjective` | src/middleware/rateLimiter.ts:35-39 | different tiers get different upgrade hints |
| `Proclubs.EffectiveLimit` | src/routes/proclubs.ts:66 | NaN and 0 fall back to 10; any other parsed value is used; the limit is never 0 |
| `Proclubs.SliceEnd` | src/routes/proclubs.ts:67 | `slice(0, end)` keeps `min(end, len)` elements, or `len + end` (floored at 0) for a negative end |
| `Proclubs.ListMatches` | src/routes/proclubs.ts:65-78 | the data is always a prefix of the match list with `total` its length: `min(10, len)` by default, `min(limit, len)` for a positive limit, `len + limit` floored at 0 for a negative one; `tier` and `requestCount` come from the attached key |
| `Proclubs.Matches` | src/routes/proclubs.ts:64-78 | on the three mock matches, at most three are returned, and all three by default |
| `Proclubs.FindMatch` | src/routes/proclubs.ts:83 | the result is the first index with that `matchId`, or None when no element has it |
| `Proclubs.MatchById` | src/routes/proclubs.ts:81-97 | a match is found exactly when some match has the id, and it is the first such; otherwise 404 "Match not found" |
| `Proclubs.PlayerStatisticsRoute` | src/routes/proclubs.ts:100-118 | refused with 403 exactly when the tier is Free; otherwise the two player records |
| `Proclubs.AdvancedAnalyticsRoute` | src/routes/proclubs.ts:121-150 | refused with 403 exactly when the tier is not Premium, and the refusal carries the current tier |
| `Proclubs.GatesByTier` | src/routes/proclubs.ts:100-130 | Free gets neither gated route, Basic statistics but not analytics, Premium both |
| `Proclubs.AnalyticsImpliesStatistics` | src/routes/proclubs.ts:100-130 | whoever may read advanced analytics may also read player statistics |
| `SubscriptionRoutes.RateLimitText` | src/routes/subscription.ts:17 | the advertised text is a non-empty run of digits followed by " requests per minute" |
| `SubscriptionRoutes.RateLimitTextReadsBack` | src/routes/subscription.ts:17 | the advertised text is the limit's digits followed by " requests per minute", and the digits read back as the limit |
| `SubscriptionRoutes.RateLimitTextInjective` | src/routes/subscription.ts:17 | plans with different limits advertise different texts |
| `SubscriptionRoutes.Summary` | src/routes/subscription.ts:12-18 | a plan's summary keeps its tier, price, currency and features, and its limit text reads back as the plan's `maxRequests` |
| `SubscriptionRoutes.PlansListing` | src/routes/subscription.ts:10-19 | one entry per tier in enum order, each with the plan's features, price and currency and "<maxRequests> requests per minute" |
| `SubscriptionRoutes.SubscribeFree` | src/routes/subscription.ts:23-43 | a missing or empty userId gets a 400 and leaves the store unchanged; otherwise exactly one Free key is stored and the 201 answer returns that key, tier Free and the Free plan's features and limit |
| `SubscriptionRoutes.Checkout` | src/routes/subscription.ts:46-71 | the checks run in order: missing fields first, then `free`, then a value outside the enum; proceeding implies a truthy userId and a string that names the chosen tier |
| `SubscriptionRoutes.CheckoutOnlyForPaidTiers` | src/routes/subscription.ts:57-71 | the payment call is reached exactly for a truthy userId with tier `basic` or `premium` |
| `Pipeline.ProtectedRequest` | src/index.ts:66 | 401 exactly when authentication refuses, and then the store is unchanged; any request past authentication, a 429 included, has been counted once; past authentication the request is dispatched exactly when the window counter admits the updated record's identity under the limiter options of the key's tier, otherwise it gets a 429 reporting that tier and its limit; a dispatched request carries the stored, incremented record; a 401 carries exactly the error and message authentication gave, so unknown and deactivated keys still look alike; a 429 body is exactly the handler's answer for the updated record, message and upgrade hint included |
| `Pipeline.RateLimitedRequestsAreCounted` | src/index.ts:66 | a request refused with 429 has already raised its key's count by 1 |
| `Pipeline.LimiterKeyedByApiKey` | src/middleware/rateLimiter.ts:23 | behind successful authentication the limiter counts per API key, never per IP |
| `Pipeline.MatchesReportCurrentRequest` | src/routes/proclubs.ts:75 | the count a dispatched `/matches` request reports includes that request |

## Left out

- The rate-limit window counter lives inside the `express-rate-limit` library, which is not
  part of this model. `Pipeline.ProtectedRequest` takes its verdict as the parameter `admit`.
  So what happens when a brand-new limiter is built for every request
  (src/middleware/rateLimiter.ts:51) is not examined.
- Randomness and clocks: the UUID text and the time are parameters. `KeyStore.IsUuidHex` states
  the UUID's form, which the key-format lemmas assume.
- ApiKeys.ApiKeyService.GenerateApiKey: has no freshness precondition. A colliding key is
  overwritten as `Map.set` does. The run lemmas (`KeyStore.RunEvolves`, `KeyStore.DeactivatedStaysInvalid`)
  assume every issued key is fresh (`KeyStore.FreshRun`), which is what UUID generation promises.
- Floating point: prices are exact hundredths (0, 999, 2999) rather than `number`s. The
  player `rating` and the numeric analytics fields (`winRate`, averages, `confidence`) are not
  modelled.
- `parseInt` text rules: the parsed `limit` is an input (`None` for NaN). The environment
  overrides are `Option<nat>`, so NaN or a negative override is not modelled.
- JSON body values that are not strings (a numeric `userId` or `tier`) are not modelled:
  body fields and headers are optional strings.
- Express matching header names case-insensitively is not modelled.
- Decimal.NatToString: does not model JavaScript's exponent notation for numbers of 1e21 and above.
- `requestCount` is an unbounded natural; JavaScript's loss of integer precision above 2^53 is
  not modelled.
- Aliasing: records are values. The attached record is read back from the store after the
  increment, which gives what the shared object gives. `GetAllApiKeys` returns copies, not live objects.
- The payment service (checkout session creation, webhook handling) is not part of this model.
  Neither are the HTML success and cancel pages, the rest of the Express wiring, or logging.
- Dates: a match's `date` is kept as the text its `Date` serialises to in JSON
  ("2024-01-15T00:00:00.000Z"), not as a `Date` object.
- Concurrency: every operation is treated as atomic, as on Node's single event loop.
