/** The records shared by the whole API (src/models/types.ts). */
module Types {
  import opened Wrappers

  /** The subscription tiers, in the enum's declaration order. */
  datatype SubscriptionTier = Free | Basic | Premium

  /** `Object.values(SubscriptionTier)`: every tier exactly once, in declaration order. */
  const AllTiers: seq<SubscriptionTier> := [Free, Basic, Premium]

  /** The enum member's string value; it is also the text embedded in issued keys. */
  function TierString(t: SubscriptionTier): (s: string)
    ensures |s| > 0
    ensures forall c :: c in s ==> 'a' <= c <= 'z'
  {
    match t
    case Free => "free"
    case Basic => "basic"
    case Premium => "premium"
  }

  /** The tier whose string value is `s`, if any: the enum's membership test. */
  function ParseTier(s: string): (r: Option<SubscriptionTier>)
    ensures forall t :: r == Some(t) <==> TierString(t) == s
  {
    if s == "free" then Some(Free)
    else if s == "basic" then Some(Basic)
    else if s == "premium" then Some(Premium)
    else None
  }

  /** Position of a tier in the price ladder. */
  function TierRank(t: SubscriptionTier): nat
  {
    match t
    case Free => 0
    case Basic => 1
    case Premium => 2
  }

  /** There are exactly three tiers, each listed once, and they are all distinct. */
  lemma AllTiersComplete(t: SubscriptionTier)
    ensures |AllTiers| == 3 && t in AllTiers
    ensures forall i, j :: 0 <= i < j < |AllTiers| ==> AllTiers[i] != AllTiers[j]
  {
  }

  /** The string value determines the tier: two tiers with equal strings are the same tier. */
  lemma TierStringInjective(t1: SubscriptionTier, t2: SubscriptionTier)
    ensures TierString(t1) == TierString(t2) ==> t1 == t2
  {
  }

  /**
   * JavaScript truthiness of an optional string (a header, a body field, an address):
   * present and not empty.
   */
  predicate Truthy(s: Option<string>)
  {
    s.Some? && s.value != ""
  }

  /** Milliseconds on the server clock (`Date`), supplied by the caller. */
  type Time = int

  /** A stored API key record. Every field is mandatory except `lastUsed`. */
  datatype ApiKey = ApiKey(
    key: string,
    tier: SubscriptionTier,
    userId: string,
    createdAt: Time,
    isActive: bool,
    requestCount: nat,
    lastUsed: Option<Time>)

  /** A rate-limit configuration: a window length and a maximum request count, nothing else. */
  datatype RateLimitConfig = RateLimitConfig(windowMs: nat, maxRequests: nat)

  /** A pricing plan; `priceCents` is the price in hundredths of the currency unit. */
  datatype SubscriptionPlan = SubscriptionPlan(
    tier: SubscriptionTier,
    priceCents: nat,
    currency: string,
    rateLimit: RateLimitConfig,
    features: seq<string>)

  /** A match record; `date` is the text a `Date` serialises to in the JSON answer. */
  datatype ProclubsMatch = ProclubsMatch(
    matchId: string,
    clubName: string,
    opponentName: string,
    result: string,
    goalsFor: nat,
    goalsAgainst: nat,
    date: string,
    competition: string)

  /** A player's season statistics (the floating-point rating is not modelled). */
  datatype PlayerStatistics = PlayerStatistics(
    playerId: string,
    playerName: string,
    position: string,
    matches: nat,
    goals: nat,
    assists: nat,
    cleanSheets: nat)
}
