/** The authenticator `authenticateApiKey` (src/middleware/auth.ts). */
module Auth {
  import opened Wrappers
  import opened Types
  import KeyStore
  import ApiKeys

  const MissingKeyMessage: string := "API key is required. Please include it in the X-API-Key header."
  const InvalidKeyMessage: string := "Invalid or inactive API key."

  /** A 401 answer (the request ends) or the record attached to the request before `next()`. */
  datatype AuthResult =
    | Unauthorized(error: string, message: string)
    | Authenticated(record: ApiKey)

  datatype AuthStep = AuthStep(result: AuthResult, store: KeyStore.Store)

  /**
   * The authenticator's decision and its effect on the store. On success the attached
   * record is the stored object after `incrementRequestCount`, since both are the same
   * object in the source.
   */
  function Authenticate(m: KeyStore.Store, header: Option<string>, now: Time): (s: AuthStep)
    ensures !Truthy(header) ==> s == AuthStep(Unauthorized("Unauthorized", MissingKeyMessage), m)
    ensures Truthy(header) && KeyStore.Validate(m, header.value).None? ==>
              s == AuthStep(Unauthorized("Unauthorized", InvalidKeyMessage), m)
    ensures s.result.Authenticated? <==> Truthy(header) && header.value in m && m[header.value].isActive
    ensures s.result.Authenticated? ==>
              && s.store == KeyStore.RecordUse(m, header.value, now)
              && s.result.record == s.store[header.value]
              && s.result.record.requestCount == m[header.value].requestCount + 1
              && s.result.record.isActive
  {
    if !Truthy(header) then
      AuthStep(Unauthorized("Unauthorized", MissingKeyMessage), m)
    else
      var k := header.value;
      match KeyStore.Validate(m, k)
      case None => AuthStep(Unauthorized("Unauthorized", InvalidKeyMessage), m)
      case Some(_) =>
        var m' := KeyStore.RecordUse(m, k, now);
        AuthStep(Authenticated(m'[k]), m')
  }

  /** The authenticator run on the shared key store. */
  method AuthenticateApiKey(svc: ApiKeys.ApiKeyService, header: Option<string>, now: Time)
    returns (r: AuthResult)
    requires svc.Valid()
    modifies svc
    ensures svc.Valid()
    ensures AuthStep(r, svc.apiKeys) == Authenticate(old(svc.apiKeys), header, now)
    ensures svc.order == old(svc.order)
  {
    if header.None? || header.value == "" {
      return Unauthorized("Unauthorized", MissingKeyMessage);
    }
    var apiKey := header.value;
    var validatedKey := svc.ValidateApiKey(apiKey);
    if validatedKey.None? {
      return Unauthorized("Unauthorized", InvalidKeyMessage);
    }
    svc.IncrementRequestCount(apiKey, now);
    // The source attaches the object it validated, which the increment has just updated.
    r := Authenticated(svc.apiKeys[apiKey]);
  }

  /** A key that was never issued and a deactivated key get the same answer. */
  lemma UnknownAndInactiveLookAlike(m1: KeyStore.Store, m2: KeyStore.Store, k: string, now: Time)
    requires k !in m1
    requires k in m2 && !m2[k].isActive
    ensures Authenticate(m1, Some(k), now).result == Authenticate(m2, Some(k), now).result
    ensures Authenticate(m1, Some(k), now).store == m1
    ensures Authenticate(m2, Some(k), now).store == m2
  {
  }

  /** Authentication lets every stored record evolve only as the key store allows. */
  lemma AuthenticateEvolves(m: KeyStore.Store, header: Option<string>, now: Time)
    ensures KeyStore.Evolves(m, Authenticate(m, header, now).store)
  {
  }

  /** `n` authentications in a row with the same header. */
  function AuthenticateTimes(m: KeyStore.Store, k: string, n: nat, now: Time): (r: KeyStore.Store)
    ensures r.Keys == m.Keys
    decreases n
  {
    if n == 0 then m else AuthenticateTimes(Authenticate(m, Some(k), now).store, k, n - 1, now)
  }

  /** Each of `n` authentications with an active key succeeds and counts exactly once. */
  lemma {:induction false} AuthenticateTimesCounts(m: KeyStore.Store, k: string, n: nat, now: Time)
    requires k in m && m[k].isActive && k != ""
    ensures var m' := AuthenticateTimes(m, k, n, now);
      && m'[k].requestCount == m[k].requestCount + n
      && m'[k].isActive
      && (forall j :: j in m && j != k ==> m'[j] == m[j])
    decreases n
  {
    if n > 0 {
      var m1 := Authenticate(m, Some(k), now).store;
      AuthenticateTimesCounts(m1, k, n - 1, now);
    }
  }

  /** A freshly issued key authenticated `n` times reports a request count of `n`. */
  lemma IssuedKeyCountsEveryUse(m: KeyStore.Store, userId: string, tier: SubscriptionTier, uuid: string,
                                created: Time, n: nat, now: Time)
    ensures var rec := KeyStore.NewRecord(userId, tier, uuid, created);
      AuthenticateTimes(KeyStore.Issue(m, rec), rec.key, n, now)[rec.key].requestCount == n
  {
    var rec := KeyStore.NewRecord(userId, tier, uuid, created);
    AuthenticateTimesCounts(KeyStore.Issue(m, rec), rec.key, n, now);
  }
}
