/**
 * The key store's contents as a value (the `Map<string, ApiKey>` of
 * src/services/apiKeyService.ts) and what each operation does to it. The class
 * ApiKeys.ApiKeyService is proved against these functions.
 */
module KeyStore {
  import opened Wrappers
  import opened Types

  type Store = map<string, ApiKey>

  // ---------------------------------------------------------------------------
  // Key format: "eafc_" + tier + "_" + the UUID with its dashes removed

  const KeyPrefix: string := "eafc_"

  predicate IsHexDigit(c: char)
  {
    '0' <= c <= '9' || 'a' <= c <= 'f'
  }

  /** What `uuidv4().replace(/-/g, '')` yields: 32 lower-case hexadecimal digits. */
  predicate IsUuidHex(u: string)
  {
    |u| == 32 && forall i :: 0 <= i < |u| ==> IsHexDigit(u[i])
  }

  /** The key issued for a tier and a UUID: the prefix, the tier's value, `_`, the UUID. */
  function MakeKey(tier: SubscriptionTier, uuid: string): (r: string)
    ensures |r| == |KeyPrefix| + |TierString(tier)| + 1 + |uuid|
    ensures r[..|KeyPrefix|] == KeyPrefix
    ensures r[|KeyPrefix|..|KeyPrefix| + |TierString(tier)|] == TierString(tier)
    ensures r[|r| - |uuid| - 1] == '_' && r[|r| - |uuid|..] == uuid
  {
    KeyPrefix + TierString(tier) + "_" + uuid
  }

  /** Splits a key into the tier and UUID it was issued with, if it has the issued form. */
  function ParseKey(k: string): (r: Option<(SubscriptionTier, string)>)
    ensures r.Some? ==> IsUuidHex(r.value.1) && k == MakeKey(r.value.0, r.value.1)
  {
    if |k| < |KeyPrefix| + 33 || k[..|KeyPrefix|] != KeyPrefix then None
    else
      var rest := k[|KeyPrefix|..];
      var n := |rest| - 33;
      var uuid := rest[n + 1..];
      match ParseTier(rest[..n])
      case Some(t) =>
        if rest[n] == '_' && IsUuidHex(uuid) then
          assert rest == TierString(t) + "_" + uuid;
          assert k == KeyPrefix + rest;
          Some((t, uuid))
        else None
      case None => None
  }

  /** An issued key can be read back into the tier and UUID it was made from. */
  lemma ParseMakeKey(t: SubscriptionTier, u: string)
    requires IsUuidHex(u)
    ensures ParseKey(MakeKey(t, u)) == Some((t, u))
  {
  }

  /** Keys of the issued form are equal only when tier and UUID are; the prefix fixes the tier. */
  lemma KeyDeterminesTier(t1: SubscriptionTier, u1: string, t2: SubscriptionTier, u2: string)
    requires IsUuidHex(u1) && IsUuidHex(u2)
    requires MakeKey(t1, u1) == MakeKey(t2, u2)
    ensures t1 == t2 && u1 == u2
  {
    ParseMakeKey(t1, u1);
    ParseMakeKey(t2, u2);
  }

  // ---------------------------------------------------------------------------
  // The store's invariant and its operations

  /** Every record is filed under its own key. */
  ghost predicate KeysMatch(m: Store)
  {
    forall k :: k in m ==> m[k].key == k
  }

  /** The record `generateApiKey` builds. */
  function NewRecord(userId: string, tier: SubscriptionTier, uuid: string, now: Time): (r: ApiKey)
    ensures r.key == MakeKey(tier, uuid)
    ensures r.tier == tier && r.userId == userId && r.createdAt == now
    ensures r.isActive && r.requestCount == 0 && r.lastUsed == None
  {
    ApiKey(MakeKey(tier, uuid), tier, userId, now, true, 0, None)
  }

  /** `apiKeys.set(rec.key, rec)`: a key already present would be overwritten. */
  function Issue(m: Store, rec: ApiKey): (r: Store)
    ensures r.Keys == m.Keys + {rec.key}
    ensures rec.key in r && r[rec.key] == rec
    ensures forall k :: k in m && k != rec.key ==> r[k] == m[k]
  {
    m[rec.key := rec]
  }

  /** `validateApiKey`: the stored record when it exists and is active. */
  function Validate(m: Store, k: string): (r: Option<ApiKey>)
    ensures r.None? <==> k !in m || !m[k].isActive
    ensures r.Some? ==> r.value == m[k] && r.value.isActive
  {
    if k in m && m[k].isActive then Some(m[k]) else None
  }

  /** `getApiKeyInfo`: the stored record, active or not. */
  function Lookup(m: Store, k: string): (r: Option<ApiKey>)
    ensures r.None? <==> k !in m
    ensures r.Some? ==> r.value == m[k]
  {
    if k in m then Some(m[k]) else None
  }

  /** `incrementRequestCount`: one more use and a new `lastUsed` for a known key. */
  function RecordUse(m: Store, k: string, now: Time): (r: Store)
    ensures r.Keys == m.Keys
    ensures forall j :: j in m && j != k ==> r[j] == m[j]
    ensures k in m ==> r[k] == m[k].(requestCount := m[k].requestCount + 1, lastUsed := Some(now))
    ensures k !in m ==> r == m
  {
    if k in m then m[k := m[k].(requestCount := m[k].requestCount + 1, lastUsed := Some(now))] else m
  }

  /** `deactivateApiKey`: reports whether the key exists and clears its `isActive`. */
  function Deactivate(m: Store, k: string): (r: (bool, Store))
    ensures r.0 <==> k in m
    ensures r.1.Keys == m.Keys
    ensures forall j :: j in m && j != k ==> r.1[j] == m[j]
    ensures k in m ==> r.1[k] == m[k].(isActive := false)
    ensures Validate(r.1, k) == None
  {
    if k in m then (true, m[k := m[k].(isActive := false)]) else (false, m)
  }

  /** `upgradeSubscription`: reports whether the key exists and replaces its tier. */
  function ChangeTier(m: Store, k: string, t: SubscriptionTier): (r: (bool, Store))
    ensures r.0 <==> k in m
    ensures r.1.Keys == m.Keys
    ensures forall j :: j in m && j != k ==> r.1[j] == m[j]
    ensures k in m ==> r.1[k] == m[k].(tier := t)
    ensures !r.0 ==> r.1 == m
  {
    if k in m then (true, m[k := m[k].(tier := t)]) else (false, m)
  }

  // ---------------------------------------------------------------------------
  // Runs of operations

  /** The operations that change the store. */
  datatype Op =
    | IssueOp(userId: string, tier: SubscriptionTier, uuid: string, now: Time)
    | UseOp(key: string, now: Time)
    | DeactivateOp(key: string)
    | ChangeTierOp(key: string, newTier: SubscriptionTier)

  function Apply(m: Store, op: Op): Store
  {
    match op
    case IssueOp(u, t, id, now) => Issue(m, NewRecord(u, t, id, now))
    case UseOp(k, now) => RecordUse(m, k, now)
    case DeactivateOp(k) => Deactivate(m, k).1
    case ChangeTierOp(k, t) => ChangeTier(m, k, t).1
  }

  function Run(m: Store, ops: seq<Op>): Store
    decreases |ops|
  {
    if ops == [] then m else Run(Apply(m, ops[0]), ops[1..])
  }

  /** The UUID oracle's promise: an issued key is not already in the store. */
  predicate FreshIssue(m: Store, op: Op)
  {
    op.IssueOp? ==> MakeKey(op.tier, op.uuid) !in m
  }

  predicate FreshRun(m: Store, ops: seq<Op>)
    decreases |ops|
  {
    ops == [] || (FreshIssue(m, ops[0]) && FreshRun(Apply(m, ops[0]), ops[1..]))
  }

  /**
   * How a record may evolve: its key, owner and creation time stay, its count never
   * decreases, and once inactive it never becomes active again.
   */
  predicate Succeeds(a: ApiKey, b: ApiKey)
  {
    && b.key == a.key
    && b.userId == a.userId
    && b.createdAt == a.createdAt
    && a.requestCount <= b.requestCount
    && (b.isActive ==> a.isActive)
  }

  /** No key disappears, and each stored record evolves as `Succeeds` allows. */
  ghost predicate Evolves(m: Store, m': Store)
  {
    forall k :: k in m ==> k in m' && Succeeds(m[k], m'[k])
  }

  lemma EvolvesTransitive(m1: Store, m2: Store, m3: Store)
    requires Evolves(m1, m2) && Evolves(m2, m3)
    ensures Evolves(m1, m3)
  {
  }

  /** Each operation with a fresh issue key lets every record evolve only as allowed. */
  lemma ApplyEvolves(m: Store, op: Op)
    requires FreshIssue(m, op)
    ensures Evolves(m, Apply(m, op))
  {
  }

  /** Every operation keeps each record filed under its own key. */
  lemma ApplyKeepsKeysMatch(m: Store, op: Op)
    requires KeysMatch(m)
    ensures KeysMatch(Apply(m, op))
  {
  }

  /** Over a whole run: no key is lost, no count decreases, nothing is reactivated. */
  lemma {:induction false} RunEvolves(m: Store, ops: seq<Op>)
    requires FreshRun(m, ops)
    ensures Evolves(m, Run(m, ops))
    decreases |ops|
  {
    if ops != [] {
      var m1 := Apply(m, ops[0]);
      ApplyEvolves(m, ops[0]);
      RunEvolves(m1, ops[1..]);
      EvolvesTransitive(m, m1, Run(m1, ops[1..]));
    }
  }

  /** Over a whole run every record stays filed under its own key. */
  lemma {:induction false} RunKeepsKeysMatch(m: Store, ops: seq<Op>)
    requires KeysMatch(m)
    ensures KeysMatch(Run(m, ops))
    decreases |ops|
  {
    if ops != [] {
      ApplyKeepsKeysMatch(m, ops[0]);
      RunKeepsKeysMatch(Apply(m, ops[0]), ops[1..]);
    }
  }

  /** A deactivated key is refused by `validateApiKey` after any later run of operations. */
  lemma DeactivatedStaysInvalid(m: Store, k: string, ops: seq<Op>)
    requires k in m
    requires FreshRun(Deactivate(m, k).1, ops)
    ensures Validate(Run(Deactivate(m, k).1, ops), k) == None
  {
    var m1 := Deactivate(m, k).1;
    RunEvolves(m1, ops);
    assert k in m1 && !m1[k].isActive;
  }
}
