/** The data routes behind authentication (src/routes/proclubs.ts). */
module Proclubs {
  import opened Wrappers
  import opened Types

  const MockMatches: seq<ProclubsMatch> := [
    ProclubsMatch("match_001", "FC Champions", "United FC", "W", 3, 1, "2024-01-15T00:00:00.000Z", "Division 1"),
    ProclubsMatch("match_002", "FC Champions", "City Rovers", "D", 2, 2, "2024-01-18T00:00:00.000Z", "Division 1"),
    ProclubsMatch("match_003", "FC Champions", "Athletic Club", "L", 1, 2, "2024-01-20T00:00:00.000Z", "Division 1")
  ]

  const MockPlayerStats: seq<PlayerStatistics> := [
    PlayerStatistics("player_001", "John Striker", "ST", 25, 18, 7, 0),
    PlayerStatistics("player_002", "Mike Midfielder", "CM", 25, 5, 12, 0)
  ]

  const DefaultMatchLimit: int := 10

  /** `req.apiKey?.tier`. */
  function TierOf(apiKey: Option<ApiKey>): Option<SubscriptionTier>
  {
    if apiKey.Some? then Some(apiKey.value.tier) else None
  }

  // ---------------------------------------------------------------------------
  // GET /matches

  /**
   * `parseInt(req.query.limit) || 10`; `parsed` is what `parseInt` produced, `None`
   * standing for NaN. NaN and 0 are falsy and fall back to the default.
   */
  function EffectiveLimit(parsed: Option<int>): (l: int)
    ensures l != 0
    ensures parsed.Some? && parsed.value != 0 ==> l == parsed.value
    ensures parsed.None? || parsed == Some(0) ==> l == DefaultMatchLimit
  {
    if parsed.Some? && parsed.value != 0 then parsed.value else DefaultMatchLimit
  }

  /** `Array.prototype.slice(0, end)`: a negative end counts back from the length. */
  function SliceEnd(len: nat, end: int): (n: nat)
    ensures n <= len
    ensures end >= 0 ==> n == if end < len then end else len
    ensures end < 0 ==> n == if len + end > 0 then len + end else 0
  {
    if end < 0 then (if len + end > 0 then len + end else 0)
    else if end < len then end
    else len
  }

  datatype MatchesPage = MatchesPage(
    data: seq<ProclubsMatch>,
    total: nat,
    tier: Option<SubscriptionTier>,
    requestCount: Option<nat>)

  /** The /matches answer over a match list: always a prefix, and `total` is its length. */
  function ListMatches(ms: seq<ProclubsMatch>, apiKey: Option<ApiKey>, limit: Option<int>): (p: MatchesPage)
    ensures p.total == |p.data| <= |ms| && p.data == ms[..p.total]
    ensures limit.None? || limit == Some(0) ==> |p.data| == if |ms| < DefaultMatchLimit then |ms| else DefaultMatchLimit
    ensures limit.Some? && limit.value > 0 ==> |p.data| == if limit.value < |ms| then limit.value else |ms|
    ensures limit.Some? && limit.value < 0 ==> |p.data| == if |ms| + limit.value > 0 then |ms| + limit.value else 0
    ensures p.tier == TierOf(apiKey)
    ensures p.requestCount == (if apiKey.Some? then Some(apiKey.value.requestCount) else None)
  {
    var matches := ms[..SliceEnd(|ms|, EffectiveLimit(limit))];
    MatchesPage(matches, |matches|, TierOf(apiKey),
                if apiKey.Some? then Some(apiKey.value.requestCount) else None)
  }

  /** GET /matches on the mock data: by default all three matches. */
  function Matches(apiKey: Option<ApiKey>, limit: Option<int>): (p: MatchesPage)
    ensures p.total <= 3
    ensures limit.None? || limit == Some(0) ==> p.data == MockMatches
  {
    ListMatches(MockMatches, apiKey, limit)
  }

  // ---------------------------------------------------------------------------
  // GET /matches/:matchId

  /** `find`: the first element whose `matchId` equals `id`. */
  function FindMatch(ms: seq<ProclubsMatch>, id: string): (r: Option<nat>)
    ensures r.None? ==> forall i :: 0 <= i < |ms| ==> ms[i].matchId != id
    ensures r.Some? ==> r.value < |ms| && ms[r.value].matchId == id
    ensures r.Some? ==> forall i :: 0 <= i < r.value ==> ms[i].matchId != id
    decreases |ms|
  {
    if ms == [] then None
    else if ms[0].matchId == id then Some(0)
    else match FindMatch(ms[1..], id)
      case None => None
      case Some(i) => Some(i + 1)
  }

  datatype MatchAnswer =
    | MatchFound(data: ProclubsMatch)
    | MatchNotFound(error: string, message: string)

  /** The /matches/:matchId answer: the first match with that id, or a 404. */
  function MatchById(id: string): (a: MatchAnswer)
    ensures a.MatchFound? <==> exists i :: 0 <= i < |MockMatches| && MockMatches[i].matchId == id
    ensures a.MatchFound? ==> exists i :: 0 <= i < |MockMatches| && MockMatches[i] == a.data
                                && a.data.matchId == id
                                && forall j :: 0 <= j < i ==> MockMatches[j].matchId != id
    ensures a.MatchNotFound? ==> a == MatchNotFound("Not Found", "Match not found")
  {
    match FindMatch(MockMatches, id)
    case Some(i) => MatchFound(MockMatches[i])
    case None => MatchNotFound("Not Found", "Match not found")
  }

  // ---------------------------------------------------------------------------
  // Tier gates

  datatype StatisticsAnswer =
    | StatisticsForbidden(error: string, message: string, upgrade: string)
    | StatisticsOk(data: seq<PlayerStatistics>, total: nat, tier: Option<SubscriptionTier>)

  /** GET /statistics/players: refused with 403 exactly when the attached tier is Free. */
  function PlayerStatisticsRoute(apiKey: Option<ApiKey>): (a: StatisticsAnswer)
    ensures a.StatisticsForbidden? <==> TierOf(apiKey) == Some(Free)
    ensures a.StatisticsOk? ==> a.data == MockPlayerStats && a.total == 2 && a.tier == TierOf(apiKey)
  {
    if TierOf(apiKey) == Some(Free) then
      StatisticsForbidden("Forbidden", "Player statistics are only available to Basic and Premium subscribers",
                          "Upgrade your plan to access this feature")
    else
      StatisticsOk(MockPlayerStats, |MockPlayerStats|, TierOf(apiKey))
  }

  /** The parts of the analytics payload that are not floating-point numbers. */
  datatype AnalyticsAnswer =
    | AnalyticsForbidden(error: string, message: string, currentTier: Option<SubscriptionTier>, upgrade: string)
    | AnalyticsOk(form: seq<string>, topScorer: PlayerStatistics, predictedResult: string,
                  tier: Option<SubscriptionTier>, premiumFeature: bool)

  /** GET /analytics/advanced: refused with 403, naming the current tier, unless it is Premium. */
  function AdvancedAnalyticsRoute(apiKey: Option<ApiKey>): (a: AnalyticsAnswer)
    ensures a.AnalyticsForbidden? <==> TierOf(apiKey) != Some(Premium)
    ensures a.AnalyticsForbidden? ==> a.currentTier == TierOf(apiKey)
    ensures a.AnalyticsOk? ==> a.tier == Some(Premium) && a.premiumFeature && a.topScorer == MockPlayerStats[0]
  {
    if TierOf(apiKey) != Some(Premium) then
      AnalyticsForbidden("Forbidden", "Advanced analytics are only available to Premium subscribers",
                         TierOf(apiKey), "Upgrade to Premium to access this feature")
    else
      AnalyticsOk(["W", "W", "L", "W", "D"], MockPlayerStats[0], "W", TierOf(apiKey), true)
  }

  /** The capability table: Free gets neither gated route, Basic statistics only, Premium both. */
  lemma GatesByTier(k: ApiKey)
    ensures k.tier == Free ==>
              PlayerStatisticsRoute(Some(k)).StatisticsForbidden? && AdvancedAnalyticsRoute(Some(k)).AnalyticsForbidden?
    ensures k.tier == Basic ==>
              PlayerStatisticsRoute(Some(k)).StatisticsOk? && AdvancedAnalyticsRoute(Some(k)).AnalyticsForbidden?
    ensures k.tier == Premium ==>
              PlayerStatisticsRoute(Some(k)).StatisticsOk? && AdvancedAnalyticsRoute(Some(k)).AnalyticsOk?
  {
  }

  /** Whoever may see advanced analytics may also see player statistics. */
  lemma AnalyticsImpliesStatistics(apiKey: Option<ApiKey>)
    ensures AdvancedAnalyticsRoute(apiKey).AnalyticsOk? ==> PlayerStatisticsRoute(apiKey).StatisticsOk?
  {
  }
}
