/** The in-memory key store `ApiKeyService` (src/services/apiKeyService.ts). */
module ApiKeys {
  import opened Wrappers
  import opened Types
  import KeyStore

  class ApiKeyService {
    /** The `Map<string, ApiKey>` of stored records. */
    var apiKeys: map<string, ApiKey>
    /** The Map's insertion order, which `getAllApiKeys` reports values in. */
    var order: seq<string>

    ghost predicate Valid()
      reads this
    {
      && KeyStore.KeysMatch(apiKeys)
      && (forall i :: 0 <= i < |order| ==> order[i] in apiKeys)
      && (forall k :: k in apiKeys ==> k in order)
      && (forall i, j :: 0 <= i < j < |order| ==> order[i] != order[j])
    }

    constructor ()
      ensures Valid()
      ensures apiKeys == map[] && order == []
    {
      apiKeys := map[];
      order := [];
    }

    /** Issues the key for `uuid` (the UUID generator's output) at clock reading `now`. */
    method GenerateApiKey(userId: string, tier: SubscriptionTier, uuid: string, now: Time)
      returns (r: ApiKey)
      requires Valid()
      modifies this
      ensures Valid()
      ensures r == KeyStore.NewRecord(userId, tier, uuid, now)
      ensures apiKeys == KeyStore.Issue(old(apiKeys), r)
      ensures order == if r.key in old(apiKeys) then old(order) else old(order) + [r.key]
    {
      var key := KeyStore.MakeKey(tier, uuid);
      r := ApiKey(key, tier, userId, now, true, 0, None);
      if key !in apiKeys {
        order := order + [key];
      }
      apiKeys := apiKeys[key := r];
    }

    method ValidateApiKey(key: string) returns (r: Option<ApiKey>)
      ensures r == KeyStore.Validate(apiKeys, key)
    {
      if key !in apiKeys || !apiKeys[key].isActive {
        return None;
      }
      r := Some(apiKeys[key]);
    }

    method IncrementRequestCount(key: string, now: Time)
      requires Valid()
      modifies this
      ensures Valid()
      ensures apiKeys == KeyStore.RecordUse(old(apiKeys), key, now)
      ensures order == old(order)
    {
      if key in apiKeys {
        var rec := apiKeys[key];
        rec := rec.(requestCount := rec.requestCount + 1, lastUsed := Some(now));
        apiKeys := apiKeys[key := rec];
      }
    }

    method DeactivateApiKey(key: string) returns (found: bool)
      requires Valid()
      modifies this
      ensures Valid()
      ensures (found, apiKeys) == KeyStore.Deactivate(old(apiKeys), key)
      ensures order == old(order)
    {
      found := key in apiKeys;
      if found {
        apiKeys := apiKeys[key := apiKeys[key].(isActive := false)];
      }
    }

    method GetApiKeyInfo(key: string) returns (r: Option<ApiKey>)
      ensures r == KeyStore.Lookup(apiKeys, key)
    {
      r := if key in apiKeys then Some(apiKeys[key]) else None;
    }

    /** Every stored record once, in insertion order. */
    method GetAllApiKeys() returns (r: seq<ApiKey>)
      requires Valid()
      ensures |r| == |order| == |apiKeys|
      ensures forall i :: 0 <= i < |r| ==> r[i] == apiKeys[order[i]]
      ensures forall x :: x in r <==> x in apiKeys.Values
    {
      r := [];
      var i := 0;
      while i < |order|
        invariant 0 <= i <= |order|
        invariant |r| == i
        invariant forall j :: 0 <= j < i ==> r[j] == apiKeys[order[j]]
      {
        r := r + [apiKeys[order[i]]];
        i := i + 1;
      }
      forall x | x in apiKeys.Values
        ensures x in r
      {
        var k :| k in apiKeys && apiKeys[k] == x;
        var j :| 0 <= j < |order| && order[j] == k;
        assert r[j] == x;
      }
      OrderCoversKeys();
    }

    /** In a valid store, `order` lists each stored key exactly once. */
    lemma OrderCoversKeys()
      requires Valid()
      ensures |order| == |apiKeys|
    {
      var ks := set i | 0 <= i < |order| :: order[i];
      assert ks == apiKeys.Keys;
      DistinctCard(order);
    }

    static lemma {:induction false} DistinctCard(s: seq<string>)
      requires forall i, j :: 0 <= i < j < |s| ==> s[i] != s[j]
      ensures |set i | 0 <= i < |s| :: s[i]| == |s|
      decreases |s|
    {
      if s != [] {
        var t := s[..|s| - 1];
        DistinctCard(t);
        var a := set i | 0 <= i < |t| :: t[i];
        var b := set i | 0 <= i < |s| :: s[i];
        assert b == a + {s[|s| - 1]};
        assert s[|s| - 1] !in a;
      }
    }

    method UpgradeSubscription(key: string, newTier: SubscriptionTier) returns (found: bool)
      requires Valid()
      modifies this
      ensures Valid()
      ensures (found, apiKeys) == KeyStore.ChangeTier(old(apiKeys), key, newTier)
      ensures order == old(order)
    {
      found := key in apiKeys;
      if found {
        apiKeys := apiKeys[key := apiKeys[key].(tier := newTier)];
      }
    }
  }
}
