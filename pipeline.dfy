/**
 * The protected request path `/api/proclubs`: authentication, then the tier's rate
 * limiter, then the route (src/index.ts, line 66). The window counter inside the
 * rate-limiting library is a parameter: `admit(identity, options)` is its verdict.
 */
module Pipeline {
  import opened Wrappers
  import opened Types
  import opened Subscriptions
  import KeyStore
  import Auth
  import RateLimiter
  import Proclubs

  datatype Outcome =
    | Rejected401(error: string, message: string)
    | Rejected429(body: RateLimiter.TooManyRequests)
    | Dispatched(record: ApiKey)

  /** One request through the middleware chain, with the key store before and after it. */
  function ProtectedRequest(m: KeyStore.Store, header: Option<string>, ip: Option<string>, now: Time,
                            env: RateLimitEnv, admit: (string, RateLimiter.LimiterOptions) -> bool)
    : (r: (Outcome, KeyStore.Store))
    ensures r.0.Rejected401? <==> Auth.Authenticate(m, header, now).result.Unauthorized?
    ensures r.0.Rejected401? ==> r.1 == m
    ensures r.0.Rejected401? ==>
              var a := Auth.Authenticate(m, header, now).result;
              r.0 == Rejected401(a.error, a.message)
    ensures !r.0.Rejected401? ==>
              && Truthy(header) && header.value in m
              && r.1 == KeyStore.RecordUse(m, header.value, now)
              && r.1[header.value].requestCount == m[header.value].requestCount + 1
    ensures r.0.Rejected429? ==>
              && r.0.body.tier == m[header.value].tier
              && r.0.body.limit == MaxRequests(env, m[header.value].tier)
    ensures !r.0.Rejected401? ==>
              (r.0.Dispatched? <==>
                 admit(RateLimiter.IdentityKey(Some(r.1[header.value]), ip),
                       RateLimiter.CreateRateLimiter(env, m[header.value].tier)))
    ensures r.0.Dispatched? ==> r.0.record == r.1[header.value]
    ensures r.0.Rejected429? ==> r.0.body == RateLimiter.Handler(env, Some(r.1[header.value]))
  {
    var step := Auth.Authenticate(m, header, now);
    match step.result
    case Unauthorized(e, msg) => (Rejected401(e, msg), step.store)
    case Authenticated(rec) =>
      var attached := Some(rec);
      var options := RateLimiter.DynamicRateLimiter(env, attached);
      if admit(RateLimiter.IdentityKey(attached, ip), options) then (Dispatched(rec), step.store)
      else (Rejected429(RateLimiter.Handler(env, attached)), step.store)
  }

  /** A request refused with 429 has already been counted against its key. */
  lemma RateLimitedRequestsAreCounted(m: KeyStore.Store, header: Option<string>, ip: Option<string>, now: Time,
                                      env: RateLimitEnv, admit: (string, RateLimiter.LimiterOptions) -> bool)
    requires ProtectedRequest(m, header, ip, now, env, admit).0.Rejected429?
    ensures var m' := ProtectedRequest(m, header, ip, now, env, admit).1;
      header.value in m' && m'[header.value].requestCount == m[header.value].requestCount + 1
  {
  }

  /** In a store whose records are filed under their keys, the limiter counts per API key. */
  lemma LimiterKeyedByApiKey(m: KeyStore.Store, header: Option<string>, ip: Option<string>, now: Time)
    requires KeyStore.KeysMatch(m)
    requires Auth.Authenticate(m, header, now).result.Authenticated?
    ensures RateLimiter.IdentityKey(Some(Auth.Authenticate(m, header, now).result.record), ip) == header.value
  {
  }

  /** The request count a dispatched /matches request reports includes that request. */
  lemma MatchesReportCurrentRequest(m: KeyStore.Store, header: Option<string>, ip: Option<string>, now: Time,
                                    env: RateLimitEnv, admit: (string, RateLimiter.LimiterOptions) -> bool,
                                    limit: Option<int>)
    requires ProtectedRequest(m, header, ip, now, env, admit).0.Dispatched?
    ensures var rec := ProtectedRequest(m, header, ip, now, env, admit).0.record;
      Proclubs.Matches(Some(rec), limit).requestCount == Some(m[header.value].requestCount + 1)
  {
  }
}
