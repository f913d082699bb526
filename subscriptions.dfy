/** The tier catalog `SUBSCRIPTION_PLANS` (src/models/subscriptions.ts). */
module Subscriptions {
  import opened Wrappers
  import opened Types

  /**
   * The environment overrides RATE_LIMIT_FREE, RATE_LIMIT_BASIC and RATE_LIMIT_PREMIUM,
   * already parsed; `None` stands for a variable that is unset or empty.
   */
  datatype RateLimitEnv = RateLimitEnv(free: Option<nat>, basic: Option<nat>, premium: Option<nat>)

  const NoOverrides: RateLimitEnv := RateLimitEnv(None, None, None)

  /** Every plan counts requests over one minute. */
  const OneMinuteMs: nat := 60 * 1000

  function DefaultMaxRequests(t: SubscriptionTier): (n: nat)
    ensures t == Free ==> n == 10
    ensures t == Basic ==> n == 100
    ensures t == Premium ==> n == 1000
  {
    match t
    case Free => 10
    case Basic => 100
    case Premium => 1000
  }

  function Override(env: RateLimitEnv, t: SubscriptionTier): Option<nat>
  {
    match t
    case Free => env.free
    case Basic => env.basic
    case Premium => env.premium
  }

  /** `parseInt(process.env.RATE_LIMIT_<TIER> || '<default>')`. */
  function MaxRequests(env: RateLimitEnv, t: SubscriptionTier): (n: nat)
    ensures Override(env, t) == Some(n) || (Override(env, t).None? && n == DefaultMaxRequests(t))
  {
    match Override(env, t)
    case Some(v) => v
    case None => DefaultMaxRequests(t)
  }

  /** The feature list of each plan, in the order the catalog lists it. */
  function Features(t: SubscriptionTier): (fs: seq<string>)
    ensures t == Free ==> |fs| == 3
    ensures t == Basic ==> |fs| == 5 && fs[1] == "Player statistics"
    ensures t == Premium ==> |fs| == 7 && fs[3] == "Advanced analytics"
    ensures "Player statistics" in fs <==> t == Basic
    ensures "Advanced analytics" in fs <==> t == Premium
  {
    match t
    case Free => [
      "Access to basic match data",
      "Limited to 10 requests per minute",
      "Community support"]
    case Basic => [
      "Access to all match data",
      "Player statistics",
      "100 requests per minute",
      "Email support",
      "Historical data access (6 months)"]
    case Premium => [
      "All Basic features",
      "1000 requests per minute",
      "Real-time match updates",
      "Advanced analytics",
      "Priority support",
      "Historical data access (unlimited)",
      "Webhook notifications"]
  }

  function PriceCents(t: SubscriptionTier): (r: nat)
    ensures r == 0 <==> t == Free
  {
    match t
    case Free => 0
    case Basic => 999
    case Premium => 2999
  }

  /** `SUBSCRIPTION_PLANS[t]`: the catalog has a plan for every tier, filed under its own tier. */
  function PlanFor(env: RateLimitEnv, t: SubscriptionTier): (p: SubscriptionPlan)
    ensures p.tier == t
    ensures p.rateLimit.windowMs == OneMinuteMs
    ensures p.rateLimit.maxRequests == MaxRequests(env, t)
    ensures p.priceCents == 0 <==> t == Free
    ensures p.currency == "USD"
    ensures p.features == Features(t)
  {
    SubscriptionPlan(t, PriceCents(t), "USD", RateLimitConfig(OneMinuteMs, MaxRequests(env, t)), Features(t))
  }

  /** Without overrides, a higher tier always has a strictly higher request limit. */
  lemma DefaultLimitsRiseWithTier(t1: SubscriptionTier, t2: SubscriptionTier)
    requires TierRank(t1) < TierRank(t2)
    ensures PlanFor(NoOverrides, t1).rateLimit.maxRequests < PlanFor(NoOverrides, t2).rateLimit.maxRequests
  {
  }

  /** Every plan uses the same one-minute window, whatever the overrides. */
  lemma SameWindowForAllTiers(env: RateLimitEnv, t1: SubscriptionTier, t2: SubscriptionTier)
    ensures PlanFor(env, t1).rateLimit.windowMs == PlanFor(env, t2).rateLimit.windowMs == 60000
  {
  }
}
