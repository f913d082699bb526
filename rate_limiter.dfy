/**
 * The tier-dependent parts of the rate limiter (src/middleware/rateLimiter.ts): the
 * identity key, the tier fallback, the limiter options and the 429 body. The window
 * counter itself belongs to the rate-limiting library and is not modelled.
 */
module RateLimiter {
  import opened Wrappers
  import opened Types
  import opened Subscriptions
  import Decimal

  /** `keyGenerator`: `apiKey?.key || req.ip || 'unknown'`. */
  function IdentityKey(apiKey: Option<ApiKey>, ip: Option<string>): (r: string)
    ensures r != ""
    ensures apiKey.Some? && apiKey.value.key != "" ==> r == apiKey.value.key
    ensures (apiKey.None? || apiKey.value.key == "") && Truthy(ip) ==> r == ip.value
    ensures (apiKey.None? || apiKey.value.key == "") && !Truthy(ip) ==> r == "unknown"
  {
    var fromKey := if apiKey.Some? then Some(apiKey.value.key) else None;
    if Truthy(fromKey) then fromKey.value
    else if Truthy(ip) then ip.value
    else "unknown"
  }

  /**
   * `apiKey?.tier || SubscriptionTier.FREE`. Every tier's string value is non-empty, so
   * the fallback applies exactly when no key is attached.
   */
  function EffectiveTier(apiKey: Option<ApiKey>): (t: SubscriptionTier)
    ensures apiKey.Some? ==> t == apiKey.value.tier
    ensures apiKey.None? ==> t == Free
  {
    var fromKey := if apiKey.Some? then Some(TierString(apiKey.value.tier)) else None;
    if Truthy(fromKey) then apiKey.value.tier else Free
  }

  function LimitExceededMessage(tier: SubscriptionTier, max: nat): (r: string)
    ensures var head := LimitHead(tier); var d := |r| - |LimitTail|;
      && |head| < d
      && r[..|head|] == head && r[d..] == LimitTail
      && Decimal.AllDigits(r[|head|..d])
      && Decimal.ParseDecimal(r[|head|..d]) == max
  {
    Decimal.ParseNatToString(max);
    var r := LimitHead(tier) + Decimal.NatToString(max) + LimitTail;
    assert r[..|LimitHead(tier)|] == LimitHead(tier);
    assert r[|LimitHead(tier)|..|r| - |LimitTail|] == Decimal.NatToString(max);
    assert r[|r| - |LimitTail|..] == LimitTail;
    r
  }

  /** The text of the limit message before its number, and after it. */
  function LimitHead(tier: SubscriptionTier): string
  {
    "Rate limit exceeded for " + TierString(tier) + " tier. Maximum "
  }

  const LimitTail: string := " requests per minute."

  /** The `message` option of the limiter; the custom handler answers instead of it. */
  datatype DefaultMessage = DefaultMessage(error: string, message: string, tier: SubscriptionTier, limit: nat)

  /** The options `createRateLimiter` passes to the rate-limiting library. */
  datatype LimiterOptions = LimiterOptions(
    windowMs: nat,
    max: nat,
    message: DefaultMessage,
    standardHeaders: bool,
    legacyHeaders: bool)

  /** `createRateLimiter(tier)`: a limiter configured with exactly that tier's plan limits. */
  function CreateRateLimiter(env: RateLimitEnv, tier: SubscriptionTier): (o: LimiterOptions)
    ensures o.windowMs == PlanFor(env, tier).rateLimit.windowMs == OneMinuteMs
    ensures o.max == PlanFor(env, tier).rateLimit.maxRequests
    ensures o.message.tier == tier && o.message.limit == o.max
    ensures o.standardHeaders && !o.legacyHeaders
  {
    var config := PlanFor(env, tier).rateLimit;
    LimiterOptions(
      config.windowMs,
      config.maxRequests,
      DefaultMessage("Too Many Requests", LimitExceededMessage(tier, config.maxRequests), tier, config.maxRequests),
      true,
      false)
  }

  /** `dynamicRateLimiter`: the limiter for the request's effective tier. */
  function DynamicRateLimiter(env: RateLimitEnv, apiKey: Option<ApiKey>): (o: LimiterOptions)
    ensures o == CreateRateLimiter(env, EffectiveTier(apiKey))
    ensures apiKey.None? ==> o.max == MaxRequests(env, Free)
  {
    CreateRateLimiter(env, EffectiveTier(apiKey))
  }

  // The hint texts are written as two literals each: the verifier sees the characters of
  // short literals only, and it needs their first characters to tell the hints apart.
  const FreeHint: string := "Upgrade to Basic or Premium" + " for higher limits"
  const BasicHint: string := "Upgrade to Premium" + " for higher limits"
  const TopTierHint: string := "You are already" + " on the highest tier"

  /** The upgrade suggestion: the tiers above the current one, or none for the top tier. */
  function UpgradeHint(tier: SubscriptionTier): (s: string)
    ensures s == TopTierHint <==> tier == Premium
    ensures s == FreeHint <==> tier == Free
    ensures s == BasicHint <==> tier == Basic
  {
    assert FreeHint[0] == BasicHint[0] == 'U' != TopTierHint[0];
    assert FreeHint[11] == 'B' != BasicHint[11];
    match tier
    case Free => FreeHint
    case Basic => BasicHint
    case Premium => TopTierHint
  }

  /** The 429 body. */
  datatype TooManyRequests = TooManyRequests(
    error: string,
    message: string,
    tier: SubscriptionTier,
    limit: nat,
    upgrade: string)

  /** `handler`: the 429 body reports the effective tier, its plan limit and the upgrade hint. */
  function Handler(env: RateLimitEnv, apiKey: Option<ApiKey>): (b: TooManyRequests)
    ensures b.tier == EffectiveTier(apiKey)
    ensures b.limit == PlanFor(env, b.tier).rateLimit.maxRequests
    ensures b.upgrade == UpgradeHint(b.tier)
    ensures b.error == "Too Many Requests"
    ensures b.message == LimitExceededMessage(b.tier, b.limit)
  {
    var tier := EffectiveTier(apiKey);
    var config := PlanFor(env, tier).rateLimit;
    TooManyRequests("Too Many Requests", LimitExceededMessage(tier, config.maxRequests), tier,
                    config.maxRequests, UpgradeHint(tier))
  }

  /** The limit a 429 body reports is the one the limiter was configured with. */
  lemma HandlerReportsEnforcedLimit(env: RateLimitEnv, apiKey: Option<ApiKey>)
    ensures Handler(env, apiKey).limit == DynamicRateLimiter(env, apiKey).max
    ensures Handler(env, apiKey).tier == DynamicRateLimiter(env, apiKey).message.tier
  {
  }

  /** The three upgrade hints are pairwise distinct, so the hint identifies the tier. */
  lemma UpgradeHintInjective(t1: SubscriptionTier, t2: SubscriptionTier)
    ensures UpgradeHint(t1) == UpgradeHint(t2) ==> t1 == t2
  {
  }
}
