/** The public subscription routes (src/routes/subscription.ts), without the payment provider. */
module SubscriptionRoutes {
  import opened Wrappers
  import opened Types
  import opened Subscriptions
  import Decimal
  import KeyStore
  import ApiKeys

  const PerMinuteSuffix: string := " requests per minute"

  /** `${maxRequests} requests per minute`. */
  function RateLimitText(maxRequests: nat): (r: string)
    ensures |r| > |PerMinuteSuffix|
    ensures r[|r| - |PerMinuteSuffix|..] == PerMinuteSuffix
    ensures Decimal.AllDigits(r[..|r| - |PerMinuteSuffix|])
  {
    Decimal.NatToString(maxRequests) + PerMinuteSuffix
  }

  /** The limit text starts with the limit's digits, which read back as the limit. */
  lemma RateLimitTextReadsBack(n: nat)
    ensures var s := RateLimitText(n); var d := |s| - |PerMinuteSuffix|;
      && d > 0
      && s[d..] == PerMinuteSuffix
      && Decimal.AllDigits(s[..d])
      && Decimal.ParseDecimal(s[..d]) == n
  {
    var s := RateLimitText(n);
    assert s[..|s| - |PerMinuteSuffix|] == Decimal.NatToString(n);
    assert s[|s| - |PerMinuteSuffix|..] == PerMinuteSuffix;
    Decimal.ParseNatToString(n);
  }

  /** Plans with different limits advertise different limit texts. */
  lemma RateLimitTextInjective(a: nat, b: nat)
    ensures RateLimitText(a) == RateLimitText(b) ==> a == b
  {
    RateLimitTextReadsBack(a);
    RateLimitTextReadsBack(b);
  }

  // ---------------------------------------------------------------------------
  // GET /plans

  datatype PlanSummary = PlanSummary(
    tier: SubscriptionTier,
    priceCents: nat,
    currency: string,
    features: seq<string>,
    rateLimit: string)

  function Summary(p: SubscriptionPlan): (r: PlanSummary)
    ensures r.tier == p.tier && r.priceCents == p.priceCents
    ensures r.currency == p.currency && r.features == p.features
    ensures var d := |r.rateLimit| - |PerMinuteSuffix|;
      && d > 0 && r.rateLimit[d..] == PerMinuteSuffix
      && Decimal.AllDigits(r.rateLimit[..d])
      && Decimal.ParseDecimal(r.rateLimit[..d]) == p.rateLimit.maxRequests
  {
    RateLimitTextReadsBack(p.rateLimit.maxRequests);
    PlanSummary(p.tier, p.priceCents, p.currency, p.features, RateLimitText(p.rateLimit.maxRequests))
  }

  /** One entry per tier, in the catalog's order, each advertising its own limit. */
  function PlansListing(env: RateLimitEnv): (r: seq<PlanSummary>)
    ensures |r| == |AllTiers| == 3
    ensures forall i :: 0 <= i < |r| ==>
              && r[i].tier == AllTiers[i]
              && r[i].features == Features(AllTiers[i])
              && r[i].currency == "USD"
              && r[i].priceCents == PriceCents(AllTiers[i])
              && r[i].rateLimit == RateLimitText(MaxRequests(env, AllTiers[i]))
  {
    seq(|AllTiers|, i requires 0 <= i < |AllTiers| => Summary(PlanFor(env, AllTiers[i])))
  }

  // ---------------------------------------------------------------------------
  // POST /subscribe/free

  datatype FreeAnswer =
    | FreeBadRequest(error: string, message: string)
    | FreeKeyCreated(message: string, apiKey: string, tier: SubscriptionTier,
                     features: seq<string>, rateLimit: string)

  /** Issues a Free key for a truthy `userId`; `uuid` and `now` stand for the generator and clock. */
  method SubscribeFree(svc: ApiKeys.ApiKeyService, env: RateLimitEnv, userId: Option<string>,
                       uuid: string, now: Time) returns (a: FreeAnswer)
    requires svc.Valid()
    modifies svc
    ensures svc.Valid()
    ensures !Truthy(userId) ==>
              && a == FreeBadRequest("Bad Request", "userId is required")
              && svc.apiKeys == old(svc.apiKeys) && svc.order == old(svc.order)
    ensures Truthy(userId) ==>
              var rec := KeyStore.NewRecord(userId.value, Free, uuid, now);
              && svc.apiKeys == KeyStore.Issue(old(svc.apiKeys), rec)
              && svc.order == (if rec.key in old(svc.apiKeys) then old(svc.order)
                               else old(svc.order) + [rec.key])
              && a == FreeKeyCreated("Free API key generated successfully", rec.key, Free,
                                     Features(Free), RateLimitText(MaxRequests(env, Free)))
  {
    if userId.None? || userId.value == "" {
      return FreeBadRequest("Bad Request", "userId is required");
    }
    var apiKey := svc.GenerateApiKey(userId.value, Free, uuid, now);
    var plan := PlanFor(env, Free);
    a := FreeKeyCreated("Free API key generated successfully", apiKey.key, apiKey.tier,
                        plan.features, RateLimitText(plan.rateLimit.maxRequests));
  }

  // ---------------------------------------------------------------------------
  // POST /subscribe/checkout

  const MissingFieldsMessage: string := "userId and tier are required"
  const UseFreeEndpointMessage: string := "Use /subscribe/free endpoint for free tier"
  const InvalidTierMessage: string := "Invalid subscription tier"

  /** A 400 answer, or the go-ahead to ask the payment provider for a checkout session. */
  datatype CheckoutDecision =
    | CheckoutRejected(error: string, message: string)
    | StartCheckout(userId: string, tier: SubscriptionTier)

  /** The checks before the payment call, in the order the route makes them. */
  function Checkout(userId: Option<string>, tier: Option<string>): (d: CheckoutDecision)
    ensures !Truthy(userId) || !Truthy(tier) ==> d == CheckoutRejected("Bad Request", MissingFieldsMessage)
    ensures Truthy(userId) && tier == Some("free") ==> d == CheckoutRejected("Bad Request", UseFreeEndpointMessage)
    ensures Truthy(userId) && Truthy(tier) && ParseTier(tier.value).None? ==>
              d == CheckoutRejected("Bad Request", InvalidTierMessage)
    ensures d.StartCheckout? ==> Truthy(userId) && d.userId == userId.value && tier == Some(TierString(d.tier))
  {
    if !Truthy(userId) || !Truthy(tier) then CheckoutRejected("Bad Request", MissingFieldsMessage)
    else if tier.value == TierString(Free) then CheckoutRejected("Bad Request", UseFreeEndpointMessage)
    else match ParseTier(tier.value)
      case None => CheckoutRejected("Bad Request", InvalidTierMessage)
      case Some(t) => StartCheckout(userId.value, t)
  }

  /** The payment call is reached exactly for a truthy user and the tier Basic or Premium. */
  lemma CheckoutOnlyForPaidTiers(userId: Option<string>, tier: Option<string>)
    ensures Checkout(userId, tier).StartCheckout? <==>
              Truthy(userId) && (tier == Some("basic") || tier == Some("premium"))
    ensures Checkout(userId, tier).StartCheckout? ==> Checkout(userId, tier).tier != Free
  {
  }
}
