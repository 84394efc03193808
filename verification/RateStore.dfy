/** One keyspace of strings (internal/ratelimit/keys.go) under the scripts: buckets and lease sets by their spelt
    keys. What the scripts do to the stores by tenant and model is what they do to the keyspace, and a call stays in
    its own keys. */
module RateStore {
  import opened Prelude
  import opened RateModel
  import opened RateKeys
  import opened RateScript

  datatype Value = BucketValue(h: Hash) | LeaseValue(z: Zset)

  /** Names are byte strings. */
  predicate IsName(s: string) { forall i :: 0 <= i < |s| ==> s[i] < '\U{100}' }

  predicate Nameable(k: Key) { IsName(if k.PerModel? then k.model else k.tenant) }

  ghost predicate Named(hashes: map<Key, Hash>, zsets: map<string, Zset>) {
    (forall k :: k in hashes ==> Nameable(k)) && forall t :: t in zsets ==> IsName(t)
  }

  function HashAt(hashes: map<Key, Hash>, k: Key): Option<Value> {
    if k in hashes then Some(BucketValue(hashes[k])) else None
  }

  /** What the stores have for a key. */
  function At(hashes: map<Key, Hash>, zsets: map<string, Zset>, k: StoreKey): Option<Value> {
    match k
    case RequestBucket(name) => HashAt(hashes, Requests(name))
    case TokenBucket(name) => HashAt(hashes, Tokens(name))
    case ModelBucket(name) => HashAt(hashes, PerModel(name))
    case LeaseSet(name) => if name in zsets then Some(LeaseValue(zsets[name])) else None
  }

  function Get(redis: map<string, Value>, key: string): Option<Value> {
    if key in redis then Some(redis[key]) else None
  }

  predicate Spells(k: StoreKey, key: string) { Spell(k) == key }

  /** The keyspace holds exactly these stores, each entry under its spelt key. */
  ghost predicate Holds(redis: map<string, Value>, hashes: map<Key, Hash>, zsets: map<string, Zset>) {
    && Named(hashes, zsets)
    && (forall k: StoreKey :: Get(redis, Spell(k)) == At(hashes, zsets, k))
    && (forall key :: key in redis ==> exists k: StoreKey :: Spells(k, key))
  }

  // ------------------------------------------------------------------ reads and writes

  /** Writing or removing a spelt key changes that entry of the stores and no other. */
  lemma WriteIsLocal(redis: map<string, Value>, hashes: map<Key, Hash>, zsets: map<string, Zset>,
                     after: map<string, Value>, hs: map<Key, Hash>, zs: map<string, Zset>, k: StoreKey)
    requires Holds(redis, hashes, zsets) && Named(hs, zs) && Get(after, Spell(k)) == At(hs, zs, k)
    requires forall j: StoreKey :: j != k ==> At(hs, zs, j) == At(hashes, zsets, j)
    requires forall key :: key != Spell(k) ==> Get(after, key) == Get(redis, key)
    ensures Holds(after, hs, zs)
  {
    forall j: StoreKey ensures Get(after, Spell(j)) == At(hs, zs, j) {
      if j != k && Spell(j) == Spell(k) { KeysAreDistinct(j, k); }
    }
    forall key | key in after ensures exists j: StoreKey :: Spells(j, key) {
      if key == Spell(k) { assert Spells(k, key); } else { assert Get(after, key) == Get(redis, key); }
    }
  }

  /** The model's key of a bucket. */
  function KeyOf(k: StoreKey): Key
    requires !k.LeaseSet?
  {
    match k
    case RequestBucket(name) => Requests(name)
    case TokenBucket(name) => Tokens(name)
    case ModelBucket(name) => PerModel(name)
  }

  lemma OtherBuckets(hashes: map<Key, Hash>, zsets: map<string, Zset>, k: StoreKey, h: Hash, j: StoreKey)
    requires !k.LeaseSet? && j != k
    ensures At(hashes[KeyOf(k) := h], zsets, j) == At(hashes, zsets, j)
  {
    if !j.LeaseSet? { assert KeyOf(j) != KeyOf(k); }
  }

  lemma BucketWrite(redis: map<string, Value>, hashes: map<Key, Hash>, zsets: map<string, Zset>, k: StoreKey, h: Hash)
    requires Holds(redis, hashes, zsets) && !k.LeaseSet?
    ensures Holds(redis[Spell(k) := BucketValue(h)], hashes[KeyOf(k) := h], zsets)
  {
    var after, hs := redis[Spell(k) := BucketValue(h)], hashes[KeyOf(k) := h];
    forall j: StoreKey | j != k ensures At(hs, zsets, j) == At(hashes, zsets, j) {
      OtherBuckets(hashes, zsets, k, h, j);
    }
    assert Get(after, Spell(k)) == At(hs, zsets, k);
    WriteIsLocal(redis, hashes, zsets, after, hs, zsets, k);
  }

  lemma OtherSets(hashes: map<Key, Hash>, zsets: map<string, Zset>, zs: map<string, Zset>, name: Name, j: StoreKey)
    requires j != LeaseSet(name) && forall t :: t != name ==> (t in zs <==> t in zsets)
                                                              && (t in zs ==> zs[t] == zsets[t])
    ensures At(hashes, zs, j) == At(hashes, zsets, j)
  {
  }

  lemma SetWrite(redis: map<string, Value>, hashes: map<Key, Hash>, zsets: map<string, Zset>, name: Name, z: Zset)
    requires Holds(redis, hashes, zsets)
    ensures Holds(redis[Spell(LeaseSet(name)) := LeaseValue(z)], hashes, zsets[name := z])
  {
    var k: StoreKey, zs := LeaseSet(name), zsets[name := z];
    forall j: StoreKey | j != k ensures At(hashes, zs, j) == At(hashes, zsets, j) {
      OtherSets(hashes, zsets, zs, name, j);
    }
    WriteIsLocal(redis, hashes, zsets, redis[Spell(k) := LeaseValue(z)], hashes, zs, k);
  }

  lemma Removed(redis: map<string, Value>, after: map<string, Value>, x: string)
    requires after == redis - {x}
    ensures Get(after, x) == None && forall key :: key != x ==> Get(after, key) == Get(redis, key)
  {
  }

  lemma SetRemoval(redis: map<string, Value>, hashes: map<Key, Hash>, zsets: map<string, Zset>, name: Name)
    requires Holds(redis, hashes, zsets)
    ensures Holds(redis - {Spell(LeaseSet(name))}, hashes, zsets - {name})
  {
    SetGone(redis, hashes, zsets, name, redis - {Spell(LeaseSet(name))}, zsets - {name});
  }

  lemma SetGone(redis: map<string, Value>, hashes: map<Key, Hash>, zsets: map<string, Zset>, name: Name,
                after: map<string, Value>, zs: map<string, Zset>)
    requires Holds(redis, hashes, zsets) && after == redis - {Spell(LeaseSet(name))} && name !in zs
        && zs.Keys <= zsets.Keys
    requires forall t :: t != name ==> (t in zs <==> t in zsets) && (t in zs ==> zs[t] == zsets[t])
    ensures Holds(after, hashes, zs)
  {
    var k: StoreKey := LeaseSet(name);
    forall j: StoreKey | j != k ensures At(hashes, zs, j) == At(hashes, zsets, j) {
      OtherSets(hashes, zsets, zs, name, j);
    }
    Removed(redis, after, Spell(k));
    WriteIsLocal(redis, hashes, zsets, after, hashes, zs, k);
  }

  /** A keyspace determines the stores it holds. */
  lemma HoldsOne(redis: map<string, Value>, hashes: map<Key, Hash>, zsets: map<string, Zset>, hs: map<Key, Hash>,
      zs: map<string, Zset>)
    requires Holds(redis, hashes, zsets) && Holds(redis, hs, zs)
    ensures hashes == hs && zsets == zs
  {
    forall k ensures HashAt(hashes, k) == HashAt(hs, k) {
      if Nameable(k) { SameBucket(redis, hashes, zsets, hs, zs, k); }
    }
    forall t ensures (t in zsets <==> t in zs) && (t in zsets ==> zsets[t] == zs[t]) {
      if IsName(t) {
        assert At(hashes, zsets, LeaseSet(t)) == Get(redis, Spell(LeaseSet(t))) == At(hs, zs, LeaseSet(t));
      }
    }
    assert forall k :: (k in hashes <==> k in hs) && (k in hashes ==> hashes[k] == hs[k]) by {
      forall k ensures (k in hashes <==> k in hs) && (k in hashes ==> hashes[k] == hs[k]) {
        assert HashAt(hashes, k) == HashAt(hs, k);
      }
    }
  }

  lemma SameBucket(redis: map<string, Value>, hashes: map<Key, Hash>, zsets: map<string, Zset>,
                   hs: map<Key, Hash>, zs: map<string, Zset>, k: Key)
    requires Holds(redis, hashes, zsets) && Holds(redis, hs, zs) && Nameable(k)
    ensures HashAt(hashes, k) == HashAt(hs, k)
  {
    var key: StoreKey :=
      match k case Requests(n) => RequestBucket(n) case Tokens(n) => TokenBucket(n) case PerModel(n) => ModelBucket(n);
    assert At(hashes, zsets, key) == Get(redis, Spell(key)) == At(hs, zs, key);
  }

  // ------------------------------------------------------------------ a call stays in its keys

  predicate NamedCall(c: ScriptCall) {
    match c
    case AcquireAt(_, r) => IsName(r.tenant) && IsName(r.model)
    case RenewAll(_, tenant, _) => IsName(tenant)
    case ReleaseOne(_, tenant, _) => IsName(tenant)
  }

  /** The keys that a call passes to its script. */
  function KeysOf(c: ScriptCall): set<string>
    requires NamedCall(c)
  {
    match c
    case AcquireAt(_, r) =>
      {Spell(RequestBucket(r.tenant)), Spell(TokenBucket(r.tenant)), Spell(LeaseSet(r.tenant)),
       if r.modelRequestsPerMinute > 0 then Spell(ModelBucket(r.model)) else UNUSED_MODEL}
    case RenewAll(_, tenant, _) => {Spell(LeaseSet(tenant))}
    case ReleaseOne(_, tenant, _) => {Spell(LeaseSet(tenant))}
  }

  /** The lease sets after a call. */
  function SetsOf(p: Params, s: State, zsets: map<string, Zset>, c: ScriptCall): map<string, Zset> {
    match c
    case AcquireAt(now, r) => SetsAfter(p, zsets, now, r, Allow(p, s, now, r).1.allowed)
    case RenewAll(now, tenant, ids) => RenewSets(p, zsets, now, tenant, ids)
    case ReleaseOne(now, tenant, id) => ReleaseSets(zsets, now, tenant, id)
  }

  /** The buckets after a call. */
  function BucketsOf(p: Params, s: State, c: ScriptCall): map<Key, Bucket> { ModelStep(p, s, c).0.buckets }

  lemma ChargedElsewhere(p: Params, s: State, now: int, r: Request, k: Key)
    requires k != Requests(r.tenant) && k != Tokens(r.tenant)
        && (k != PerModel(r.model) || r.modelRequestsPerMinute <= 0)
    ensures SameAt(Allow(p, s, now, r).0.buckets, s.buckets, k)
  {
    ChargeAllIsEach(p, s.buckets, now, r);
  }

  /** What a call does not name it does not touch: stores and keyspace after it agree with those before on every other
      key. */
  lemma CallStaysInItsKeys(p: Params, s: State, redis: map<string, Value>, zsets: map<string, Zset>, after: map<string,
      Value>, c: ScriptCall, key: string)
    requires NamedCall(c) && key !in KeysOf(c)
    requires Holds(redis, Image(p, s.buckets), zsets)
        && Holds(after, Image(p, BucketsOf(p, s, c)), SetsOf(p, s, zsets, c))
    ensures Get(after, key) == Get(redis, key)
  {
    if k: StoreKey :| Spells(k, key) { EntryStays(p, s, zsets, c, k); }
  }

  lemma EntryStays(p: Params, s: State, zsets: map<string, Zset>, c: ScriptCall, k: StoreKey)
    requires NamedCall(c) && Spell(k) !in KeysOf(c)
    ensures At(Image(p, BucketsOf(p, s, c)), SetsOf(p, s, zsets, c), k) == At(Image(p, s.buckets), zsets, k)
  {
    if k.LeaseSet? {
      SetStays(p, s, zsets, c, k.name);
    } else {
      BucketStays(p, s, c, k);
      ImageAt(p, BucketsOf(p, s, c), s.buckets, KeyOf(k));
      AtBucket(Image(p, BucketsOf(p, s, c)), SetsOf(p, s, zsets, c), k);
      AtBucket(Image(p, s.buckets), zsets, k);
    }
  }

  lemma AtBucket(hashes: map<Key, Hash>, zsets: map<string, Zset>, k: StoreKey)
    requires !k.LeaseSet?
    ensures At(hashes, zsets, k) == HashAt(hashes, KeyOf(k))
  {
  }

  ghost predicate SameAt(a: map<Key, Bucket>, b: map<Key, Bucket>, k: Key) {
    (k in a <==> k in b) && (k in a ==> a[k] == b[k])
  }

  lemma ImageAt(p: Params, a: map<Key, Bucket>, b: map<Key, Bucket>, k: Key)
    requires SameAt(a, b, k)
    ensures HashAt(Image(p, a), k) == HashAt(Image(p, b), k)
  {
  }

  lemma SetStays(p: Params, s: State, zsets: map<string, Zset>, c: ScriptCall, t: string)
    requires NamedCall(c) && IsName(t) && Spell(LeaseSet(t)) !in KeysOf(c)
    ensures (t in SetsOf(p, s, zsets, c) <==> t in zsets) && (t in zsets ==> SetsOf(p, s, zsets, c)[t] == zsets[t])
  {
    assert t != TenantOf(c);
    match c
    case AcquireAt(now, r) => SetsElsewhere(p, zsets, now, r, Allow(p, s, now, r).1.allowed, t);
    case RenewAll(now, tenant, ids) => RenewedElsewhere(p, zsets, now, tenant, ids, t);
    case ReleaseOne(now, tenant, id) => ReleasedElsewhere(zsets, now, tenant, id, t);
  }

  lemma RenewedElsewhere(p: Params, zsets: map<string, Zset>, now: int, tenant: string, ids: seq<string>, t: string)
    requires t != tenant
    ensures var zs := RenewSets(p, zsets, now, tenant, ids); (t in zs <==> t in zsets)
                                                             && (t in zsets ==> zs[t] == zsets[t])
  {
  }

  lemma ReleasedElsewhere(zsets: map<string, Zset>, now: int, tenant: string, id: string, t: string)
    requires t != tenant
    ensures var zs := ReleaseSets(zsets, now, tenant, id); (t in zs <==> t in zsets)
                                                           && (t in zsets ==> zs[t] == zsets[t])
  {
  }

  lemma BucketStays(p: Params, s: State, c: ScriptCall, k: StoreKey)
    requires NamedCall(c) && !k.LeaseSet? && Spell(k) !in KeysOf(c)
    ensures SameAt(BucketsOf(p, s, c), s.buckets, KeyOf(k))
  {
    match c
    case AcquireAt(now, r) => ChargedElsewhere(p, s, now, r, KeyOf(k));
    case RenewAll(now, tenant, ids) => RenewKeepsBuckets(p, s, now, tenant, ids);
    case ReleaseOne(_, _, _) =>
  }

  lemma {:induction false} RenewKeepsBuckets(p: Params, s: State, now: int, tenant: string, ids: seq<string>)
    ensures RenewEach(p, s, now, tenant, ids).0.buckets == s.buckets
  {
    if ids != [] { RenewKeepsBuckets(p, s, now, tenant, ids[..|ids| - 1]); }
  }

  function TenantOf(c: ScriptCall): string { if c.AcquireAt? then c.r.tenant else c.tenant }

  /** A key of a call is a model's, or carries the call's tenant. */
  lemma KindOf(c: ScriptCall, key: string) returns (k: StoreKey)
    requires NamedCall(c) && key in KeysOf(c)
    ensures Spell(k) == key && (k.ModelBucket? || k.name == TenantOf(c))
  {
    if key == Spell(LeaseSet(TenantOf(c))) {
      k := LeaseSet(TenantOf(c));
    } else {
      k := AcquireKind(c.r, key, c.now);
    }
  }

  lemma AcquireKind(r: Request, key: string, now: int) returns (k: StoreKey)
    requires NamedCall(AcquireAt(now, r)) && key in KeysOf(AcquireAt(now, r))
    ensures Spell(k) == key && (k.ModelBucket? || k.name == r.tenant)
  {
    PlaceholderIsUnused(ModelBucket([]));
    if key == Spell(RequestBucket(r.tenant)) { k := RequestBucket(r.tenant); }
    else if key == Spell(TokenBucket(r.tenant)) { k := TokenBucket(r.tenant); }
    else if key == Spell(LeaseSet(r.tenant)) { k := LeaseSet(r.tenant); }
    else if r.modelRequestsPerMinute > 0 { k := ModelBucket(r.model); }
    else { k := ModelBucket([]); }
  }

  /** Calls of two tenants share no key but a model's. */
  lemma TenantsShareNoKey(a: ScriptCall, b: ScriptCall, key: string)
    requires NamedCall(a) && NamedCall(b) && TenantOf(a) != TenantOf(b) && key in KeysOf(a) && key in KeysOf(b)
    ensures exists name: Name :: Spells(ModelBucket(name), key)
  {
    var k := KindOf(a, key);
    var j := KindOf(b, key);
    KeysAreDistinct(k, j);
    assert Spells(ModelBucket(k.name), key);
  }
}
