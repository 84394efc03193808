/** The Lua scripts (internal/ratelimit/script.go) as a second implementation of the limiter: numbers are doubles, idle
    keys expire, and the reference model is refined on every clock that does not go back. */
module RateScript {
  import opened Prelude
  import opened RateModel
  import opened RateTheorems
  import opened Doubles

  const MAX_QUOTA := 1_000_000_000
  const MAX_BURST := 3600
  const MAX_COST := 0x1_0000_0000

  /** The capacity of the largest bucket, in scaled units. */
  const LARGEST := MAX_QUOTA * (MAX_BURST * 1000)

  /** The script's ceil_div. */
  function ScriptCeilDiv(rnd: real -> real, a: int, b: int): int
    requires b > 0
  {
    var x := Fl(rnd, Fl(rnd, a + b) - 1);
    Quot(rnd, Fl(rnd, x - Mod(rnd, x, b)), b)
  }

  lemma CeilDivExact(rnd: real -> real, a: int, b: int)
    requires Rounds(rnd) && 0 <= a && 0 < b && a + b <= TWO_53
    ensures ScriptCeilDiv(rnd, a, b) == CeilDiv(a, b)
  {
    var x := a + b - 1;
    Exact(rnd, a + b);
    Exact(rnd, x);
    ModExact(rnd, x, b);
    DivParts(x, b);
    var y := b * (x / b);
    Exact(rnd, y);
    QuotExact(rnd, y, b);
    DivExact(x / b, b, y);
  }

  /** The clock as the script reads it from seconds and microseconds. */
  function ScriptNow(rnd: real -> real, seconds: int, micros: int): int {
    Fl(rnd, Fl(rnd, seconds * 1000) + Quot(rnd, micros, 1000))
  }

  lemma ScriptNowExact(rnd: real -> real, seconds: int, micros: int)
    requires Rounds(rnd) && 0 <= seconds && seconds * 1000 + 1000 <= TWO_53 && 0 <= micros < 1000000
    ensures ScriptNow(rnd, seconds, micros) == (seconds * 1000000 + micros) / 1000
  {
    Exact(rnd, seconds * 1000);
    QuotExact(rnd, micros, 1000);
    Exact(rnd, seconds * 1000 + micros / 1000);
  }

  // ------------------------------------------------------------------ the store

  /** A bucket hash with its expiry, and a tenant's sorted set of leases with its expiry. A key is gone once the clock
      has passed its expiry. */
  datatype Hash = Hash(l: int, t: int, expireAt: int)
  datatype Zset = Zset(scores: map<string, int>, expireAt: int)

  /** Settings, clock and quotas within the bounds that the limiter enforces on its configuration and its requests. */
  predicate InRange(p: Params, now: int) {
    1 <= p.burstSeconds <= MAX_BURST && 1 <= p.leaseTtlMs && 0 <= now && now + 2 * p.leaseTtlMs + 2 * Window(p) < TWO_53
  }

  predicate Bounded(r: Request) {
    r.cost <= MAX_COST && r.requestsPerMinute <= MAX_QUOTA && r.tokensPerMinute <= MAX_QUOTA
        && r.modelRequestsPerMinute <= MAX_QUOTA
  }

  /** The hashes that a model's buckets are stored as, each expiring two windows after its stamp. */
  function Image(p: Params, buckets: map<Key, Bucket>): map<Key, Hash> {
    map k | k in buckets :: Hash(buckets[k].level, buckets[k].at, buckets[k].at + 2 * Window(p))
  }

  /** No stamp is ahead of the clock, and no level is more than the largest bucket holds. */
  ghost predicate Settled(p: Params, buckets: map<Key, Bucket>, now: int) {
    forall k :: k in buckets ==> 0 <= buckets[k].at <= now && 0 <= buckets[k].level <= LARGEST
  }

  function Alive(zsets: map<string, Zset>, tenant: string, now: int): Option<Zset> {
    if tenant in zsets && zsets[tenant].expireAt >= now then Some(zsets[tenant]) else None
  }

  /** A live set holds exactly the model's leases; a set that is gone leaves only leases that have expired. */
  ghost predicate LeasesMatch(z: Option<Zset>, held: map<string, int>, now: int, ttl: int) {
    && (forall id :: id in held ==> held[id] <= now + ttl)
    && match z
       case Some(live) => live.scores == held && forall id :: id in held ==> held[id] <= live.expireAt
       case None => forall id :: id in held ==> held[id] <= now
  }

  ghost predicate Matches(p: Params, hashes: map<Key, Hash>, zsets: map<string, Zset>, s: State, now: int) {
    && InRange(p, now) && hashes == Image(p, s.buckets) && Settled(p, s.buckets, now)
    && forall t :: LeasesMatch(Alive(zsets, t, now), LeasesOf(s, t), now, p.leaseTtlMs)
  }

  /** The part of the match that one request looks at. */
  ghost predicate MatchesFor(p: Params, hashes: map<Key, Hash>, zsets: map<string, Zset>, s: State, now: int,
      tenant: string) {
    && InRange(p, now) && hashes == Image(p, s.buckets) && Settled(p, s.buckets, now)
    && LeasesMatch(Alive(zsets, tenant, now), LeasesOf(s, tenant), now, p.leaseTtlMs)
  }

  /** Waiting alone, keys expiring included, keeps the stores matching. */
  lemma TimePasses(p: Params, hashes: map<Key, Hash>, zsets: map<string, Zset>, s: State, now: int, later: int)
    requires Matches(p, hashes, zsets, s, now) && now <= later && InRange(p, later)
    ensures Matches(p, hashes, zsets, s, later)
  {
    forall t ensures LeasesMatch(Alive(zsets, t, later), LeasesOf(s, t), later, p.leaseTtlMs) {
      assert LeasesMatch(Alive(zsets, t, now), LeasesOf(s, t), now, p.leaseTtlMs);
    }
  }

  lemma ProductBound(a: int, b: int, x: int, y: int)
    requires 0 <= a <= x && 0 <= b <= y
    ensures 0 <= a * b <= x * y
  {
    ProductGrows(a, b, y);
    ProductGrows(y, a, x);
  }

  lemma ProductGrows(a: int, b: int, c: int)
    requires 0 <= a && 0 <= b <= c
    ensures 0 <= a * b <= a * c
  {
  }

  /** An idle key that has expired was full, so reading it as missing changes nothing. */
  lemma ExpiredIsFull(p: Params, buckets: map<Key, Bucket>, key: Key, now: int, quota: int)
    requires quota > 0 && key in buckets && buckets[key].level >= 0 && buckets[key].at + 2 * Window(p) < now
    ensures Level(p, buckets, key, now, quota) == Capacity(p, quota)
  {
    ProductGrows(quota, Window(p), Window(p));
  }

  /** Every product of the script is exact: a window's refill and a capacity are below 2^53 together. */
  lemma CapacityExact(rnd: real -> real, quota: int, window: int)
    requires Rounds(rnd) && 0 <= quota <= MAX_QUOTA && 0 <= window <= MAX_BURST * 1000
    ensures Fl(rnd, quota * window) == quota * window && 0 <= quota * window <= LARGEST
        && 2 * LARGEST + MAX_QUOTA < TWO_53
  {
    ProductBound(quota, window, MAX_QUOTA, MAX_BURST * 1000);
    Exact(rnd, quota * window);
  }

  lemma GainExact(rnd: real -> real, quota: int, elapsed: int, l: int)
    requires Rounds(rnd) && 0 <= quota <= MAX_QUOTA && 0 <= elapsed <= MAX_BURST * 1000 && 0 <= l <= LARGEST
    ensures Fl(rnd, l + Fl(rnd, elapsed * quota)) == l + elapsed * quota
  {
    CapacityExact(rnd, quota, elapsed);
    Exact(rnd, l + elapsed * quota);
  }

  /** The refill of a stored bucket. */
  method Refill(rnd: real -> real, now: int, l: int, ts: int, window: int, cap: int, quota: int) returns (level: int)
    requires Rounds(rnd) && 0 <= quota <= MAX_QUOTA && 0 <= window <= MAX_BURST * 1000 && cap == quota * window
    requires 0 <= l <= LARGEST && 0 <= ts <= TWO_53 && 0 <= now <= TWO_53
    ensures level == Refilled(l, now - ts, window, quota)
  {
    var elapsed := Fl(rnd, now - ts);
    Exact(rnd, now - ts);
    if elapsed < 0 { elapsed := 0; }
    if elapsed > window { elapsed := window; }
    GainExact(rnd, quota, elapsed, l);
    level := Fl(rnd, l + Fl(rnd, elapsed * quota));
    if level > cap { level := cap; }
  }

  /** The wait of a check. */
  method Waiting(rnd: real -> real, level: int, need: int, quota: int) returns (wait: int)
    requires Rounds(rnd) && 0 < quota <= MAX_QUOTA && 0 <= level <= LARGEST && 0 <= need <= LARGEST
    ensures wait == if level < need then CeilDiv(need - level, quota) else 0
  {
    wait := 0;
    if level < need {
      Exact(rnd, need - level);
      CeilDivExact(rnd, need - level, quota);
      wait := ScriptCeilDiv(rnd, Fl(rnd, need - level), quota);
    }
  }

  lemma LevelIsRefilled(p: Params, buckets: map<Key, Bucket>, key: Key, now: int, quota: int)
    ensures Level(p, buckets, key, now, quota)
         == if key in buckets then Refilled(buckets[key].level, now - buckets[key].at, Window(p), quota)
             else Capacity(p, quota)
  {
  }

  lemma LevelBounds(p: Params, buckets: map<Key, Bucket>, key: Key, now: int, quota: int)
    requires 1 <= p.burstSeconds <= MAX_BURST && 0 < quota <= MAX_QUOTA && (key in buckets ==> buckets[key].level >= 0)
    ensures 0 <= Level(p, buckets, key, now, quota) <= Capacity(p, quota) <= LARGEST
  {
    ProductBound(quota, Window(p), MAX_QUOTA, MAX_BURST * 1000);
    if key in buckets { ProductBound(Min(Max(now - buckets[key].at, 0), Window(p)), quota, Window(p), quota); }
  }

  // ------------------------------------------------------------------ leases

  /** ZREMRANGEBYSCORE up to the clock; a set left empty disappears. */
  function PurgeSet(zsets: map<string, Zset>, tenant: string, now: int): map<string, Zset> {
    match Alive(zsets, tenant, now)
    case None => zsets - {tenant}
    case Some(z) =>
      var left := Unexpired(z.scores, now);
      if left == map[] then zsets - {tenant} else zsets[tenant := z.(scores := left)]
  }

  /** ZCARD. */
  function Card(zsets: map<string, Zset>, tenant: string, now: int): nat {
    match Alive(zsets, tenant, now)
    case None => 0
    case Some(z) => |z.scores|
  }

  /** ZADD and PEXPIRE. */
  function Lend(zsets: map<string, Zset>, tenant: string, now: int, id: string, score: int, expireAt: int): map<string,
      Zset> {
    match Alive(zsets, tenant, now)
    case None => zsets[tenant := Zset(map[id := score], expireAt)]
    case Some(z) => zsets[tenant := Zset(z.scores[id := score], expireAt)]
  }

  lemma PurgeMatches(zsets: map<string, Zset>, tenant: string, held: map<string, int>, now: int, ttl: nat)
    requires LeasesMatch(Alive(zsets, tenant, now), held, now, ttl)
    ensures LeasesMatch(Alive(PurgeSet(zsets, tenant, now), tenant, now), Unexpired(held, now), now, ttl)
    ensures Card(PurgeSet(zsets, tenant, now), tenant, now) == |Unexpired(held, now)|
    ensures forall t :: t != tenant ==> Alive(PurgeSet(zsets, tenant, now), t, now) == Alive(zsets, t, now)
  {
    if Alive(zsets, tenant, now).None? { assert Unexpired(held, now) == map[]; }
  }

  lemma LendMatches(zsets: map<string, Zset>, tenant: string, held: map<string, int>, now: int, ttl: nat, id: string)
    requires LeasesMatch(Alive(zsets, tenant, now), held, now, ttl)
    requires forall k :: k in held ==> held[k] > now
    ensures LeasesMatch(Alive(Lend(zsets, tenant, now, id, now + ttl, now + 2 * ttl), tenant, now),
        held[id := now + ttl], now, ttl)
    ensures forall t :: t != tenant ==> Alive(Lend(zsets, tenant, now, id, now + ttl, now + 2 * ttl), t, now)
                                        == Alive(zsets, t, now)
  {
    if Alive(zsets, tenant, now).None? { assert held == map[]; }
  }

  /** Renewing a list of leases: those still held are extended and counted. */
  function RenewMap(held: map<string, int>, now: int, until: int, ids: seq<string>): (map<string, int>, nat) {
    if ids == [] then (held, 0)
    else
      var (h, n) := RenewMap(held, now, until, ids[..|ids| - 1]);
      var id := ids[|ids| - 1];
      if id in h && h[id] > now then (h[id := until], n + 1) else (h, n)
  }

  /** The model's renewals, one by one. */
  function RenewEach(p: Params, s: State, now: int, tenant: string, ids: seq<string>): (State, nat) {
    if ids == [] then (s, 0)
    else
      var (t, n) := RenewEach(p, s, now, tenant, ids[..|ids| - 1]);
      var (u, held) := Renew(p, t, now, tenant, ids[|ids| - 1]);
      (u, if held then n + 1 else n)
  }

  lemma {:induction false} RenewEachIsMap(p: Params, s: State, now: int, tenant: string, ids: seq<string>)
    ensures var (t, n) := RenewEach(p, s, now, tenant, ids);
            && (LeasesOf(t, tenant), n) == RenewMap(LeasesOf(s, tenant), now, now + p.leaseTtlMs, ids)
            && t.buckets == s.buckets
            && forall other :: other != tenant ==> LeasesOf(t, other) == LeasesOf(s, other)
  {
    if ids != [] { RenewEachIsMap(p, s, now, tenant, ids[..|ids| - 1]); }
  }

  lemma {:induction false} RenewMapFacts(held: map<string, int>, now: int, until: int, ids: seq<string>)
    requires until > now
    ensures var (h, n) := RenewMap(held, now, until, ids);
            && (n == 0 ==> h == held)
            && ((forall id :: id in held ==> held[id] <= now) ==> n == 0)
            && ((forall id :: id in held ==> held[id] <= until) ==> forall id :: id in h ==> h[id] <= until)
  {
    if ids != [] { RenewMapFacts(held, now, until, ids[..|ids| - 1]); }
  }

  lemma OtherLeases(p: Params, s: State, now: int, r: Request, t: string)
    requires t != r.tenant
    ensures LeasesOf(Allow(p, s, now, r).0, t) == LeasesOf(s, t)
  {
  }

  lemma ImagePut(p: Params, buckets: map<Key, Bucket>, key: Key, b: Bucket)
    ensures Image(p, buckets[key := b]) == Image(p, buckets)[key := Hash(b.level, b.at, b.at + 2 * Window(p))]
  {
  }

  // ------------------------------------------------------------------ runs

  datatype ScriptCall =
    | AcquireAt(now: int, r: Request)
    | RenewAll(now: int, tenant: string, ids: seq<string>)
    | ReleaseOne(now: int, tenant: string, id: string)

  datatype Answer = Verdict(out: Outcome) | Count(n: nat)

  function ModelStep(p: Params, s: State, c: ScriptCall): (State, Answer) {
    match c
    case AcquireAt(now, r) => var a := Allow(p, s, now, r); (a.0, Verdict(a.1))
    case RenewAll(now, tenant, ids) => var a := RenewEach(p, s, now, tenant, ids); (a.0, Count(a.1))
    case ReleaseOne(_, tenant, id) => var a := Release(s, tenant, id); (a.0, Count(if a.1 then 1 else 0))
  }

  function ModelAfter(p: Params, s: State, calls: seq<ScriptCall>): State {
    if calls == [] then s else ModelStep(p, ModelAfter(p, s, calls[..|calls| - 1]), calls[|calls| - 1]).0
  }

  function ModelAnswers(p: Params, s: State, calls: seq<ScriptCall>): (a: seq<Answer>)
    ensures |a| == |calls|
  {
    seq(|calls|, i requires 0 <= i < |calls| => ModelStep(p, ModelAfter(p, s, calls[..i]), calls[i]).1)
  }

  lemma AnswerAt(p: Params, s: State, calls: seq<ScriptCall>, i: nat)
    requires i < |calls|
    ensures ModelAnswers(p, s, calls)[i] == ModelStep(p, ModelAfter(p, s, calls[..i]), calls[i]).1
  {
  }

  // ---- when a tenant's set expires, in terms of the model's own answers

  /** The model's state, and until when each tenant's set lives: two lease lifetimes after the last lease taken or
      renewed. */
  datatype Timed = Timed(s: State, until: map<string, int>)

  /** The model's step with the reply that the scripts give. A release is reported only while the tenant's set lives. */
  function TimedStep(p: Params, m: Timed, c: ScriptCall): (Timed, Answer) {
    var (s, a) := ModelStep(p, m.s, c);
    match c
    case AcquireAt(now, r) =>
      (Timed(s, if a.out.allowed && r.maxConcurrent > 0 then m.until[r.tenant := now + 2 * p.leaseTtlMs] else m.until),
          a)
    case RenewAll(now, tenant, _) => (Timed(s, if a.n > 0 then m.until[tenant := now + 2 * p.leaseTtlMs] else m.until),
        a)
    case ReleaseOne(now, tenant, _) => (Timed(s, m.until), if tenant in m.until && now <= m.until[tenant] then a
        else Count(0))
  }

  function TimedAfter(p: Params, m: Timed, calls: seq<ScriptCall>): Timed {
    if calls == [] then m else TimedStep(p, TimedAfter(p, m, calls[..|calls| - 1]), calls[|calls| - 1]).0
  }

  function Replies(p: Params, m: Timed, calls: seq<ScriptCall>): (a: seq<Answer>)
    ensures |a| == |calls|
  {
    if calls == [] then []
    else
      var init := calls[..|calls| - 1];
      Replies(p, m, init) + [TimedStep(p, TimedAfter(p, m, init), calls[|calls| - 1]).1]
  }

  lemma {:induction false} ReplyAt(p: Params, m: Timed, calls: seq<ScriptCall>, i: nat)
    requires i < |calls|
    ensures Replies(p, m, calls)[i] == TimedStep(p, TimedAfter(p, m, calls[..i]), calls[i]).1
  {
    var init := calls[..|calls| - 1];
    if i < |init| {
      ReplyAt(p, m, init, i);
      assert init[..i] == calls[..i];
    }
  }

  lemma {:induction false} TimedIsModel(p: Params, m: Timed, calls: seq<ScriptCall>)
    ensures TimedAfter(p, m, calls).s == ModelAfter(p, m.s, calls)
  {
    if calls != [] { TimedIsModel(p, m, calls[..|calls| - 1]); }
  }

  /** In every run the replies are the model's, except that a release of a lease the model still knows is not reported
      when the tenant's set has expired. */
  lemma RepliesAreModels(p: Params, m: Timed, calls: seq<ScriptCall>, i: nat)
    requires i < |calls|
    ensures var t, c := TimedAfter(p, m, calls[..i]), calls[i];
            Replies(p, m, calls)[i] == ModelAnswers(p, m.s, calls)[i]
            <==> !(c.ReleaseOne? && c.id in LeasesOf(t.s, c.tenant)
                 && !(c.tenant in t.until && c.now <= t.until[c.tenant]))
  {
    TimedIsModel(p, m, calls[..i]);
    AnswerAt(p, m.s, calls, i);
    ReplyAt(p, m, calls, i);
  }

  /** The store's sets carry those expiries, and every lease the model knows has one. */
  ghost predicate ExpiryOk(zsets: map<string, Zset>, m: Timed) {
    forall t :: ExpiryFits(zsets, m, t)
  }

  ghost predicate ExpiryFits(zsets: map<string, Zset>, m: Timed, t: string) {
    (t in zsets ==> t in m.until && zsets[t].expireAt == m.until[t]) && (LeasesOf(m.s, t) != map[] ==> t in zsets)
  }

  lemma ExpiryAtAcquire(p: Params, hashes: map<Key, Hash>, zsets: map<string, Zset>, m: Timed, now: int, r: Request)
    requires Matches(p, hashes, zsets, m.s, now) && ExpiryOk(zsets, m)
    ensures ExpiryOk(SetsAfter(p, zsets, now, r, Allow(p, m.s, now, r).1.allowed), TimedStep(p, m, AcquireAt(now, r)).0)
  {
    var allowed := Allow(p, m.s, now, r).1.allowed;
    var after, n := SetsAfter(p, zsets, now, r, allowed), TimedStep(p, m, AcquireAt(now, r)).0;
    forall t ensures ExpiryFits(after, n, t) {
      assert ExpiryFits(zsets, m, t) && LeasesMatch(Alive(zsets, t, now), LeasesOf(m.s, t), now, p.leaseTtlMs);
      if t == r.tenant {
        AllowLeases(p, m.s, now, r);
        ExpiryOfOwner(p, zsets, m, now, r, allowed);
      } else {
        OtherLeases(p, m.s, now, r, t);
        SetsElsewhere(p, zsets, now, r, allowed, t);
      }
    }
  }

  lemma SetsElsewhere(p: Params, zsets: map<string, Zset>, now: int, r: Request, allowed: bool, t: string)
    requires t != r.tenant
    ensures var after := SetsAfter(p, zsets, now, r, allowed); (t in after <==> t in zsets)
                                                               && (t in zsets ==> after[t] == zsets[t])
  {
  }

  lemma ExpiryOfOwner(p: Params, zsets: map<string, Zset>, m: Timed, now: int, r: Request, allowed: bool)
    requires ExpiryFits(zsets, m, r.tenant)
        && LeasesMatch(Alive(zsets, r.tenant, now), LeasesOf(m.s, r.tenant), now, p.leaseTtlMs)
    requires p.leaseTtlMs >= 1
    ensures var after, t := SetsAfter(p, zsets, now, r, allowed), r.tenant;
            var until := if allowed && r.maxConcurrent > 0 then m.until[t := now + 2 * p.leaseTtlMs] else m.until;
            (t in after ==> t in until && after[t].expireAt == until[t])
                && (HeldAfter(p, LeasesOf(m.s, t), now, r, allowed) != map[] ==> t in after)
  {
    if r.maxConcurrent > 0 && !allowed && Alive(zsets, r.tenant, now).None? {
      assert Unexpired(LeasesOf(m.s, r.tenant), now) == map[];
    }
  }

  /** The tenant's set after a renewal. */
  function RenewSets(p: Params, zsets: map<string, Zset>, now: int, tenant: string, ids: seq<string>): map<string,
      Zset> {
    match Alive(zsets, tenant, now)
    case None => zsets
    case Some(z) =>
      var (scores, n) := RenewMap(z.scores, now, now + p.leaseTtlMs, ids);
      zsets[tenant := Zset(scores, if n > 0 then now + 2 * p.leaseTtlMs else z.expireAt)]
  }

  /** Renewing keeps the stores matching, and counts what the model counts. */
  lemma RenewMatches(p: Params, hashes: map<Key, Hash>, zsets: map<string, Zset>, s: State, now: int, tenant: string,
      ids: seq<string>)
    requires Matches(p, hashes, zsets, s, now)
    ensures Matches(p, hashes, RenewSets(p, zsets, now, tenant, ids), RenewEach(p, s, now, tenant, ids).0, now)
    ensures RenewEach(p, s, now, tenant, ids).1
         == match Alive(zsets, tenant, now)
            case None => 0
            case Some(z) => RenewMap(z.scores, now, now + p.leaseTtlMs, ids).1
  {
    var t, ttl, after := RenewEach(p, s, now, tenant, ids).0, p.leaseTtlMs, RenewSets(p, zsets, now, tenant, ids);
    RenewEachIsMap(p, s, now, tenant, ids);
    assert LeasesMatch(Alive(zsets, tenant, now), LeasesOf(s, tenant), now, ttl);
    RenewMapFacts(LeasesOf(s, tenant), now, now + ttl, ids);
    OwnSetRenewed(p, zsets, LeasesOf(s, tenant), now, tenant, ids);
    forall other ensures LeasesMatch(Alive(after, other, now), LeasesOf(t, other), now, ttl) {
      assert LeasesMatch(Alive(zsets, other, now), LeasesOf(s, other), now, ttl);
    }
  }

  lemma OwnSetRenewed(p: Params, zsets: map<string, Zset>, held: map<string, int>, now: int, tenant: string,
      ids: seq<string>)
    requires p.leaseTtlMs >= 1 && LeasesMatch(Alive(zsets, tenant, now), held, now, p.leaseTtlMs)
    ensures LeasesMatch(Alive(RenewSets(p, zsets, now, tenant, ids), tenant, now),
        RenewMap(held, now, now + p.leaseTtlMs, ids).0, now, p.leaseTtlMs)
  {
    RenewMapFacts(held, now, now + p.leaseTtlMs, ids);
  }

  lemma ExpiryAtRenew(p: Params, hashes: map<Key, Hash>, zsets: map<string, Zset>, m: Timed, now: int, tenant: string,
      ids: seq<string>)
    requires Matches(p, hashes, zsets, m.s, now) && ExpiryOk(zsets, m)
    ensures ExpiryOk(RenewSets(p, zsets, now, tenant, ids), TimedStep(p, m, RenewAll(now, tenant, ids)).0)
  {
    var held := LeasesOf(m.s, tenant);
    var after, n := RenewSets(p, zsets, now, tenant, ids), TimedStep(p, m, RenewAll(now, tenant, ids)).0;
    RenewEachIsMap(p, m.s, now, tenant, ids);
    RenewMapFacts(held, now, now + p.leaseTtlMs, ids);
    assert LeasesMatch(Alive(zsets, tenant, now), held, now, p.leaseTtlMs);
    RenewKeepsEmpty(held, now, now + p.leaseTtlMs, ids);
    forall t ensures ExpiryFits(after, n, t) { assert ExpiryFits(zsets, m, t); }
  }

  lemma {:induction false} RenewKeepsEmpty(held: map<string, int>, now: int, until: int, ids: seq<string>)
    ensures RenewMap(held, now, until, ids).0 != map[] ==> held != map[]
  {
    if ids != [] { RenewKeepsEmpty(held, now, until, ids[..|ids| - 1]); }
  }

  /** The tenant's set after a release; a set left empty disappears. */
  function ReleaseSets(zsets: map<string, Zset>, now: int, tenant: string, id: string): map<string, Zset> {
    match Alive(zsets, tenant, now)
    case None => zsets
    case Some(z) =>
      if id !in z.scores then zsets
      else if z.scores - {id} == map[] then zsets - {tenant}
      else zsets[tenant := z.(scores := z.scores - {id})]
  }

  lemma ExpiryAtRelease(p: Params, hashes: map<Key, Hash>, zsets: map<string, Zset>, m: Timed, now: int, tenant: string,
      id: string)
    requires Matches(p, hashes, zsets, m.s, now) && ExpiryOk(zsets, m)
    ensures ExpiryOk(ReleaseSets(zsets, now, tenant, id), TimedStep(p, m, ReleaseOne(now, tenant, id)).0)
  {
    var after, n := ReleaseSets(zsets, now, tenant, id), TimedStep(p, m, ReleaseOne(now, tenant, id)).0;
    forall t ensures ExpiryFits(after, n, t) {
      assert ExpiryFits(zsets, m, t) && LeasesMatch(Alive(zsets, t, now), LeasesOf(m.s, t), now, p.leaseTtlMs);
      ReleasedLeases(m.s, tenant, id, t);
    }
  }

  lemma ReleasedLeases(s: State, tenant: string, id: string, t: string)
    ensures LeasesOf(Release(s, tenant, id).0, t) == if t == tenant then LeasesOf(s, t) - {id} else LeasesOf(s, t)
  {
  }

  /** The clock never goes back and stays in range, and requests stay within the limiter's bounds. */
  ghost predicate ClockRuns(p: Params, calls: seq<ScriptCall>, start: int) {
    forall i :: 0 <= i < |calls| ==> ClockAt(p, calls, start, i)
  }

  function Before(calls: seq<ScriptCall>, start: int, i: nat): int
    requires i <= |calls|
  {
    if i == 0 then start else calls[i - 1].now
  }

  predicate ClockAt(p: Params, calls: seq<ScriptCall>, start: int, i: nat) {
    i < |calls| && InRange(p, calls[i].now) && Before(calls, start, i) <= calls[i].now
        && (calls[i].AcquireAt? ==> Bounded(calls[i].r))
  }

  /** The last call of a run, and the run before it. */
  lemma RunSplits(p: Params, calls: seq<ScriptCall>, start: int)
    requires ClockRuns(p, calls, start) && calls != []
    ensures var init, c := calls[..|calls| - 1], calls[|calls| - 1];
            ClockRuns(p, init, start) && Before(init, start, |init|) <= c.now && InRange(p, c.now)
                && (c.AcquireAt? ==> Bounded(c.r))
  {
    var init, n := calls[..|calls| - 1], |calls| - 1;
    assert ClockAt(p, calls, start, n);
    forall i | 0 <= i < n ensures ClockAt(p, init, start, i) { assert ClockAt(p, calls, start, i); }
  }

  /** One lease of one tenant, released long after its lifetime. */
  const BRIEF: Params := Params(1, 1)
  const LEASE: Request := Request("t", "m", 0, 0, 0, 1, 0, "x")
  const IDLE_TENANT: seq<ScriptCall> := [AcquireAt(1, LEASE), ReleaseOne(100, "t", "x")]

  lemma IdleTenantModel()
    ensures ModelAnswers(BRIEF, Empty, IDLE_TENANT)[1] == Count(1)
    ensures Replies(BRIEF, Timed(Empty, map[]), IDLE_TENANT)[1] == Count(0)
  {
    var none: seq<ScriptCall> := [];
    var m := Timed(Empty, map[]);
    assert IDLE_TENANT[..1] == none + [AcquireAt(1, LEASE)] && (none + [AcquireAt(1, LEASE)])[..0] == none;
    WorstIsWaits(BRIEF, Empty, 1, LEASE);
    AllowParts(BRIEF, Empty, 1, LEASE);
    AllowLeases(BRIEF, Empty, 1, LEASE);
    assert ModelAfter(BRIEF, Empty, IDLE_TENANT[..1]) == Allow(BRIEF, Empty, 1, LEASE).0;
    assert TimedAfter(BRIEF, m, IDLE_TENANT[..1]) == TimedStep(BRIEF, m, AcquireAt(1, LEASE)).0;
  }

  /** From empty stores the scripts' reply to a release does differ from the model's: the lease's tenant has been idle
      for more than two lease lifetimes, so the store has dropped the whole set, while the model still knows the
      lease. */
  method ReleaseReplyDiffers(rnd: real -> real) returns (answers: seq<Answer>)
    requires Rounds(rnd)
    ensures |answers| == 2 && answers[1] == Count(0) && ModelAnswers(BRIEF, Empty, IDLE_TENANT)[1] == Count(1)
  {
    IdleTenantModel();
    var server := new Server(BRIEF, rnd, 1);
    answers := server.Serve(IDLE_TENANT, 1, Timed(Empty, map[]));
  }

  /** A refusal code of the reply. */
  function LimitOf(code: int): Limit {
    if code == 1 then LimitRequests else if code == 2 then LimitTokens else if code == 3 then LimitConcurrency
    else if code == 4 then LimitModel else NoLimit
  }

  /** What a check of the script hands on to the charge. */
  datatype Checked = Checked(level: int, need: int, at: int)

  /** The check read the bucket's level, and the bucket has what is needed. */
  ghost predicate Affordable(p: Params, buckets: map<Key, Bucket>, key: Key, now: int, quota: int, cost: int,
      c: Checked) {
    quota > 0 ==> (
      && c == Checked(Level(p, buckets, key, now, quota), Need(cost, Capacity(p, quota)), now)
      && 0 <= c.need <= c.level <= LARGEST)
  }

  class Server {
    const p: Params
    const rnd: real -> real
    var hashes: map<Key, Hash>
    var zsets: map<string, Zset>

    constructor (p: Params, rnd: real -> real, now: int)
      requires InRange(p, now)
      ensures this.p == p && this.rnd == rnd && Matches(p, hashes, zsets, Empty, now)
          && ExpiryOk(zsets, Timed(Empty, map[]))
    {
      this.p, this.rnd := p, rnd;
      hashes, zsets := map[], map[];
    }

    /** The script's check of one quota computes the model's numbers, all of them exact. */
    method Check(now: int, key: Key, quota: int, tokens: int, ghost buckets: map<Key, Bucket>)
      returns (level: int, need: int, wait: int, stamp: int)
      requires Rounds(rnd) && InRange(p, now) && hashes == Image(p, buckets) && Settled(p, buckets, now)
      requires 0 < quota <= MAX_QUOTA && 0 <= tokens <= MAX_COST
      ensures level == Level(p, buckets, key, now, quota) && need == Need(tokens, Capacity(p, quota))
      ensures wait == WaitFor(p, buckets, key, now, quota, tokens) && stamp == Stamp(buckets, key, now) == now
      ensures 0 <= need && level <= LARGEST
    {
      var window := Fl(rnd, p.burstSeconds * 1000);
      Exact(rnd, p.burstSeconds * 1000);
      var cap := Fl(rnd, quota * window);
      CapacityExact(rnd, quota, window);
      LevelIsRefilled(p, buckets, key, now, quota);
      LevelBounds(p, buckets, key, now, quota);
      level, stamp := cap, now;
      if key in hashes && hashes[key].expireAt >= now {
        var h := hashes[key];
        if h.t > now { stamp := h.t; }
        level := Refill(rnd, now, h.l, h.t, window, cap, quota);
      } else if key in hashes {
        ExpiredIsFull(p, buckets, key, now, quota);
      }
      need := Fl(rnd, tokens * SCALE);
      Exact(rnd, tokens * SCALE);
      if need > cap { need := cap; }
      wait := Waiting(rnd, level, need, quota);
    }

    /** Charge one bucket and set its expiry. */
    method Store(now: int, key: Key, quota: int, cost: int, c: Checked, ghost buckets: map<Key, Bucket>)
      requires Rounds(rnd) && InRange(p, now) && hashes == Image(p, buckets) && Settled(p, buckets, now)
      requires quota > 0 && Affordable(p, buckets, key, now, quota, cost, c)
      modifies this`hashes
      ensures hashes == Image(p, Charge(p, buckets, key, now, quota, cost))
      ensures Settled(p, Charge(p, buckets, key, now, quota, cost), now)
    {
      var window := Fl(rnd, p.burstSeconds * 1000);
      Exact(rnd, p.burstSeconds * 1000);
      Exact(rnd, window * 2);
      Exact(rnd, c.level - c.need);
      hashes := hashes[key := Hash(Fl(rnd, c.level - c.need), c.at, now + Fl(rnd, window * 2))];
      ImagePut(p, buckets, key, Bucket(c.level - c.need, now));
    }

    /** One quota of the reply: unlimited quotas are not looked at. */
    method Examine(now: int, key: Key, quota: int, tokens: int, code: int, best: Outcome, ghost buckets: map<Key,
        Bucket>)
      returns (c: Checked, worst: Outcome)
      requires Rounds(rnd) && InRange(p, now) && hashes == Image(p, buckets) && Settled(p, buckets, now)
      requires quota <= MAX_QUOTA && 0 <= tokens <= MAX_COST && best.retryMs >= 0
      ensures worst == Consider(best, LimitOf(code), WaitFor(p, buckets, key, now, quota, tokens)) && worst.retryMs >= 0
      ensures WaitFor(p, buckets, key, now, quota, tokens) <= 0 ==> Affordable(p, buckets, key, now, quota, tokens, c)
    {
      c, worst := Checked(0, 0, 0), best;
      if quota > 0 {
        var level, need, wait, at := Check(now, key, quota, tokens, buckets);
        c := Checked(level, need, at);
        WaitPositive(p, buckets, key, now, quota, tokens);
        if wait > 0 { worst := Consider(best, LimitOf(code), wait); }
      }
    }

    /** Drop expired leases and see whether the tenant has one to take. */
    method CheckLeases(now: int, r: Request, best: Outcome, ghost held: map<string, int>) returns (worst: Outcome)
      requires LeasesMatch(Alive(zsets, r.tenant, now), held, now, p.leaseTtlMs)
      modifies this`zsets
      ensures worst == if r.maxConcurrent > 0 && |Unexpired(held, now)| >= r.maxConcurrent
          then Consider(best, LimitConcurrency, CONCURRENCY_RETRY_MS) else best
      ensures zsets == if r.maxConcurrent > 0 then PurgeSet(old(zsets), r.tenant, now) else old(zsets)
    {
      worst := best;
      if r.maxConcurrent > 0 {
        PurgeMatches(zsets, r.tenant, held, now, p.leaseTtlMs);
        zsets := PurgeSet(zsets, r.tenant, now);
        if Card(zsets, r.tenant, now) >= r.maxConcurrent { worst := Consider(worst, LimitOf(3), CONCURRENCY_RETRY_MS); }
      }
    }

    /** The first half of the acquire script: every active quota is looked at, expired leases are dropped. */
    method Decide(now: int, r: Request, ghost s: State)
        returns (req: Checked, tok: Checked, mod: Checked, worst: Outcome)
      requires Rounds(rnd) && MatchesFor(p, hashes, zsets, s, now, r.tenant) && Bounded(r)
      modifies this`zsets
      ensures worst == Waits(p, s, now, r)
      ensures zsets == SetsAfter(p, old(zsets), now, r, false)
      ensures worst.limit == NoLimit ==>
                && Affordable(p, s.buckets, Requests(r.tenant), now, r.requestsPerMinute, 1, req)
                && Affordable(p, s.buckets, Tokens(r.tenant), now, r.tokensPerMinute, r.cost, tok)
                && Affordable(p, s.buckets, PerModel(r.model), now, r.modelRequestsPerMinute, 1, mod)
    {
      worst := Outcome(false, NoLimit, 0);
      req, worst := Examine(now, Requests(r.tenant), r.requestsPerMinute, 1, 1, worst, s.buckets);
      tok, worst := Examine(now, Tokens(r.tenant), r.tokensPerMinute, r.cost, 2, worst, s.buckets);
      worst := CheckLeases(now, r, worst, LeasesOf(s, r.tenant));
      mod, worst := Examine(now, PerModel(r.model), r.modelRequestsPerMinute, 1, 4, worst, s.buckets);
    }

    /** The second half: every active bucket is charged. */
    method ChargeBuckets(now: int, r: Request, req: Checked, tok: Checked, mod: Checked, ghost buckets: map<Key,
        Bucket>)
      requires Rounds(rnd) && InRange(p, now) && hashes == Image(p, buckets) && Settled(p, buckets, now)
      requires Affordable(p, buckets, Requests(r.tenant), now, r.requestsPerMinute, 1, req)
      requires Affordable(p, buckets, Tokens(r.tenant), now, r.tokensPerMinute, r.cost, tok)
      requires Affordable(p, buckets, PerModel(r.model), now, r.modelRequestsPerMinute, 1, mod)
      modifies this`hashes
      ensures hashes == Image(p, ChargeEach(p, buckets, now, r)) && Settled(p, ChargeEach(p, buckets, now, r), now)
    {
      if r.requestsPerMinute > 0 { Store(now, Requests(r.tenant), r.requestsPerMinute, 1, req, buckets); }
      ghost var b1 := Charge(p, buckets, Requests(r.tenant), now, r.requestsPerMinute, 1);
      if r.tokensPerMinute > 0 { Store(now, Tokens(r.tenant), r.tokensPerMinute, r.cost, tok, b1); }
      ghost var b2 := Charge(p, b1, Tokens(r.tenant), now, r.tokensPerMinute, r.cost);
      if r.modelRequestsPerMinute > 0 { Store(now, PerModel(r.model), r.modelRequestsPerMinute, 1, mod, b2); }
    }

    /** The acquire script gives the model's answer and leaves the stores matching. */
    method Acquire(now: int, r: Request, ghost s: State) returns (out: Outcome)
      requires Rounds(rnd) && Matches(p, hashes, zsets, s, now) && Bounded(r)
      modifies this`hashes, this`zsets
      ensures out == Allow(p, s, now, r).1
      ensures Matches(p, hashes, zsets, Allow(p, s, now, r).0, now)
      ensures zsets == SetsAfter(p, old(zsets), now, r, out.allowed)
    {
      ghost var before := zsets;
      var req, tok, mod, worst := Decide(now, r, s);
      if worst.limit != NoLimit {
        RefusedMatches(p, hashes, before, s, now, r, zsets);
        return worst;
      }
      ghost var uncharged := hashes;
      Admit(now, r, req, tok, mod, s.buckets, before);
      AdmittedMatches(p, uncharged, before, s, now, r, hashes, zsets);
      return Outcome(true, NoLimit, 0);
    }

    /** The second half of the script, when every quota admits. */
    method Admit(now: int, r: Request, req: Checked, tok: Checked, mod: Checked, ghost buckets: map<Key, Bucket>,
        ghost before: map<string, Zset>)
      requires Rounds(rnd) && InRange(p, now) && hashes == Image(p, buckets) && Settled(p, buckets, now)
      requires Affordable(p, buckets, Requests(r.tenant), now, r.requestsPerMinute, 1, req)
      requires Affordable(p, buckets, Tokens(r.tenant), now, r.tokensPerMinute, r.cost, tok)
      requires Affordable(p, buckets, PerModel(r.model), now, r.modelRequestsPerMinute, 1, mod)
      requires zsets == SetsAfter(p, before, now, r, false)
      modifies this`hashes, this`zsets
      ensures hashes == Image(p, ChargeEach(p, buckets, now, r))
      ensures zsets == SetsAfter(p, before, now, r, true)
    {
      ChargeBuckets(now, r, req, tok, mod, buckets);
      TakeLease(now, r);
    }

    /** The renew script: its count is the model's, and leases that expired or were released are not revived. */
    method RenewLeases(now: int, tenant: string, ids: seq<string>, ghost s: State) returns (renewed: nat)
      requires Rounds(rnd) && Matches(p, hashes, zsets, s, now)
      modifies this`zsets
      ensures renewed == RenewEach(p, s, now, tenant, ids).1
      ensures Matches(p, hashes, zsets, RenewEach(p, s, now, tenant, ids).0, now)
      ensures zsets == RenewSets(p, old(zsets), now, tenant, ids)
    {
      RenewMatches(p, hashes, zsets, s, now, tenant, ids);
      renewed := RenewSet(now, tenant, ids);
    }

    method RenewSet(now: int, tenant: string, ids: seq<string>) returns (renewed: nat)
      requires Rounds(rnd) && InRange(p, now)
      modifies this`zsets
      ensures zsets == RenewSets(p, old(zsets), now, tenant, ids)
      ensures renewed
           == match Alive(old(zsets), tenant, now)
              case None => 0
              case Some(z) => RenewMap(z.scores, now, now + p.leaseTtlMs, ids).1
    {
      renewed := 0;
      if Alive(zsets, tenant, now).Some? {
        var scores;
        scores, renewed := RenewScores(zsets[tenant].scores, now, ids);
        var expireAt := zsets[tenant].expireAt;
        if renewed > 0 {
          Exact(rnd, p.leaseTtlMs * 2);
          expireAt := now + Fl(rnd, p.leaseTtlMs * 2);
        }
        zsets := zsets[tenant := Zset(scores, expireAt)];
      }
    }

    method RenewScores(held: map<string, int>, now: int, ids: seq<string>)
        returns (scores: map<string, int>, renewed: nat)
      requires Rounds(rnd) && InRange(p, now)
      ensures (scores, renewed) == RenewMap(held, now, now + p.leaseTtlMs, ids)
    {
      Exact(rnd, now + p.leaseTtlMs);
      scores, renewed := held, 0;
      for i := 0 to |ids|
        invariant (scores, renewed) == RenewMap(held, now, now + p.leaseTtlMs, ids[..i])
      {
        assert ids[..i + 1][..i] == ids[..i];
        if ids[i] in scores && scores[ids[i]] > now {
          scores, renewed := scores[ids[i] := Fl(rnd, now + p.leaseTtlMs)], renewed + 1;
        }
      }
      assert ids[..|ids|] == ids;
    }

    /** The release script. The stores keep matching; the reply is the model's exactly when the tenant's set has not
        expired or the model does not know the lease either. */
    method ReleaseLease(now: int, tenant: string, id: string, ghost s: State) returns (held: bool)
      requires Matches(p, hashes, zsets, s, now)
      modifies this`zsets
      ensures Matches(p, hashes, zsets, Release(s, tenant, id).0, now)
      ensures held <==> Release(s, tenant, id).1 && Alive(old(zsets), tenant, now).Some?
      ensures id in LeasesOf(s, tenant) && LeasesOf(s, tenant)[id] > now ==> held
      ensures zsets == ReleaseSets(old(zsets), now, tenant, id)
    {
      ghost var t, ttl := Release(s, tenant, id).0, p.leaseTtlMs;
      assert LeasesMatch(Alive(zsets, tenant, now), LeasesOf(s, tenant), now, ttl);
      held := false;
      if Alive(zsets, tenant, now).Some? && id in zsets[tenant].scores {
        held := true;
        var left := zsets[tenant].scores - {id};
        zsets := if left == map[] then zsets - {tenant} else zsets[tenant := Zset(left, zsets[tenant].expireAt)];
      }
      assert LeasesMatch(Alive(zsets, tenant, now), LeasesOf(t, tenant), now, ttl);
      forall other ensures LeasesMatch(Alive(zsets, other, now), LeasesOf(t, other), now, ttl) {
        assert LeasesMatch(Alive(old(zsets), other, now), LeasesOf(s, other), now, ttl);
      }
    }

    /** A whole run: on a clock that never goes back the scripts give, in every order, the model's answers to every
        acquire and renewal, and report a release exactly when the model does and the tenant's set still lives. */
    method Serve(calls: seq<ScriptCall>, start: int, ghost s: Timed) returns (answers: seq<Answer>)
      requires Rounds(rnd) && Matches(p, hashes, zsets, s.s, start) && ExpiryOk(zsets, s) && ClockRuns(p, calls, start)
      modifies this`hashes, this`zsets
      ensures answers == Replies(p, s, calls)
      ensures Matches(p, hashes, zsets, TimedAfter(p, s, calls).s, Before(calls, start, |calls|))
          && ExpiryOk(zsets, TimedAfter(p, s, calls))
      decreases |calls|
    {
      if calls == [] { return []; }
      var init, c := calls[..|calls| - 1], calls[|calls| - 1];
      RunSplits(p, calls, start);
      answers := Serve(init, start, s);
      var a := After(c, TimedAfter(p, s, init), Before(init, start, |init|));
      answers := answers + [a];
    }

    /** A call some time after the last one. */
    method After(c: ScriptCall, ghost m: Timed, ghost clock: int) returns (a: Answer)
      requires Rounds(rnd) && Matches(p, hashes, zsets, m.s, clock) && ExpiryOk(zsets, m)
          && (c.AcquireAt? ==> Bounded(c.r))
      requires clock <= c.now && InRange(p, c.now)
      modifies this`hashes, this`zsets
      ensures a == TimedStep(p, m, c).1 && Matches(p, hashes, zsets, TimedStep(p, m, c).0.s, c.now)
          && ExpiryOk(zsets, TimedStep(p, m, c).0)
    {
      TimePasses(p, hashes, zsets, m.s, clock, c.now);
      a := One(c, m);
    }

    method One(c: ScriptCall, ghost m: Timed) returns (a: Answer)
      requires Rounds(rnd) && Matches(p, hashes, zsets, m.s, c.now) && ExpiryOk(zsets, m)
          && (c.AcquireAt? ==> Bounded(c.r))
      modifies this`hashes, this`zsets
      ensures a == TimedStep(p, m, c).1 && Matches(p, hashes, zsets, TimedStep(p, m, c).0.s, c.now)
          && ExpiryOk(zsets, TimedStep(p, m, c).0)
    {
      match c
      case AcquireAt(now, r) => a := AcquireOne(now, r, m);
      case RenewAll(now, tenant, ids) => a := RenewOne(now, tenant, ids, m);
      case ReleaseOne(now, tenant, id) => a := ReleaseOnce(now, tenant, id, m);
    }

    method AcquireOne(now: int, r: Request, ghost m: Timed) returns (a: Answer)
      requires Rounds(rnd) && Matches(p, hashes, zsets, m.s, now) && ExpiryOk(zsets, m) && Bounded(r)
      modifies this`hashes, this`zsets
      ensures a == TimedStep(p, m, AcquireAt(now, r)).1
          && Matches(p, hashes, zsets, TimedStep(p, m, AcquireAt(now, r)).0.s, now)
      ensures ExpiryOk(zsets, TimedStep(p, m, AcquireAt(now, r)).0)
    {
      ExpiryAtAcquire(p, hashes, zsets, m, now, r);
      var out := Acquire(now, r, m.s);
      a := Verdict(out);
    }

    method RenewOne(now: int, tenant: string, ids: seq<string>, ghost m: Timed) returns (a: Answer)
      requires Rounds(rnd) && Matches(p, hashes, zsets, m.s, now) && ExpiryOk(zsets, m)
      modifies this`zsets
      ensures a == TimedStep(p, m, RenewAll(now, tenant, ids)).1
          && Matches(p, hashes, zsets, TimedStep(p, m, RenewAll(now, tenant, ids)).0.s, now)
      ensures ExpiryOk(zsets, TimedStep(p, m, RenewAll(now, tenant, ids)).0)
    {
      ExpiryAtRenew(p, hashes, zsets, m, now, tenant, ids);
      var n := RenewLeases(now, tenant, ids, m.s);
      a := Count(n);
    }

    method ReleaseOnce(now: int, tenant: string, id: string, ghost m: Timed) returns (a: Answer)
      requires Matches(p, hashes, zsets, m.s, now) && ExpiryOk(zsets, m)
      modifies this`zsets
      ensures a == TimedStep(p, m, ReleaseOne(now, tenant, id)).1
          && Matches(p, hashes, zsets, TimedStep(p, m, ReleaseOne(now, tenant, id)).0.s, now)
      ensures ExpiryOk(zsets, TimedStep(p, m, ReleaseOne(now, tenant, id)).0)
    {
      ExpiryAtRelease(p, hashes, zsets, m, now, tenant, id);
      assert ExpiryFits(zsets, m, tenant);
      var held := ReleaseLease(now, tenant, id, m.s);
      a := Count(if held then 1 else 0);
    }

    method TakeLease(now: int, r: Request)
      requires Rounds(rnd) && InRange(p, now)
      modifies this`zsets
      ensures zsets == if r.maxConcurrent > 0
          then Lend(old(zsets), r.tenant, now, r.leaseId, now + p.leaseTtlMs, now + 2 * p.leaseTtlMs) else old(zsets)
    {
      if r.maxConcurrent > 0 {
        Exact(rnd, now + p.leaseTtlMs);
        Exact(rnd, p.leaseTtlMs * 2);
        zsets := Lend(zsets, r.tenant, now, r.leaseId, Fl(rnd, now + p.leaseTtlMs), now + Fl(rnd, p.leaseTtlMs * 2));
      }
    }
  }

  lemma AllowParts(p: Params, s: State, now: int, r: Request)
    ensures var (t, o) := Allow(p, s, now, r); var w := Waits(p, s, now, r);
            && o == (if w.limit == NoLimit then Outcome(true, NoLimit, 0) else w)
            && (o.allowed <==> w.limit == NoLimit)
            && t.buckets == if o.allowed then ChargeEach(p, s.buckets, now, r) else s.buckets
  {
    WorstIsWaits(p, s, now, r);
    ChargeAllIsEach(p, s.buckets, now, r);
  }

  /** The lease sets after an acquire. */
  function SetsAfter(p: Params, zsets: map<string, Zset>, now: int, r: Request, allowed: bool): map<string, Zset> {
    if r.maxConcurrent <= 0 then zsets
    else
      var purged := PurgeSet(zsets, r.tenant, now);
      if allowed then Lend(purged, r.tenant, now, r.leaseId, now + p.leaseTtlMs, now + 2 * p.leaseTtlMs) else purged
  }

  lemma SetsOfOthers(p: Params, zsets: map<string, Zset>, now: int, r: Request, allowed: bool, t: string)
    requires t != r.tenant
    ensures Alive(SetsAfter(p, zsets, now, r, allowed), t, now) == Alive(zsets, t, now)
  {
  }

  lemma OwnSetPurged(p: Params, zsets: map<string, Zset>, held: map<string, int>, now: int, r: Request)
    requires LeasesMatch(Alive(zsets, r.tenant, now), held, now, p.leaseTtlMs)
    ensures LeasesMatch(Alive(SetsAfter(p, zsets, now, r, false), r.tenant, now), HeldAfter(p, held, now, r, false),
        now, p.leaseTtlMs)
  {
    if r.maxConcurrent > 0 { PurgeMatches(zsets, r.tenant, held, now, p.leaseTtlMs); }
  }

  lemma OwnSetLent(p: Params, zsets: map<string, Zset>, held: map<string, int>, now: int, r: Request)
    requires LeasesMatch(Alive(zsets, r.tenant, now), held, now, p.leaseTtlMs)
    ensures LeasesMatch(Alive(SetsAfter(p, zsets, now, r, true), r.tenant, now), HeldAfter(p, held, now, r, true), now,
        p.leaseTtlMs)
  {
    if r.maxConcurrent > 0 {
      var purged, left := PurgeSet(zsets, r.tenant, now), Unexpired(held, now);
      assert LeasesMatch(Alive(purged, r.tenant, now), left, now,
          p.leaseTtlMs) by { PurgeMatches(zsets, r.tenant, held, now, p.leaseTtlMs); }
      LendMatches(purged, r.tenant, left, now, p.leaseTtlMs, r.leaseId);
    }
  }

  /** The lease sets after an acquire match the model's. */
  lemma LeasesAfter(p: Params, zsets: map<string, Zset>, s: State, now: int, r: Request)
    requires forall t :: LeasesMatch(Alive(zsets, t, now), LeasesOf(s, t), now, p.leaseTtlMs)
    ensures var (u, o) := Allow(p, s, now, r);
            forall t :: LeasesMatch(Alive(SetsAfter(p, zsets, now, r, o.allowed), t, now), LeasesOf(u, t), now,
                p.leaseTtlMs)
  {
    var u, allowed := Allow(p, s, now, r).0, Allow(p, s, now, r).1.allowed;
    forall t ensures LeasesMatch(Alive(SetsAfter(p, zsets, now, r, allowed), t, now), LeasesOf(u, t), now,
        p.leaseTtlMs) {
      assert LeasesMatch(Alive(zsets, t, now), LeasesOf(s, t), now, p.leaseTtlMs);
      if t == r.tenant {
        AllowLeases(p, s, now, r);
        if allowed {
          OwnSetLent(p, zsets, LeasesOf(s, t), now, r);
        } else {
          OwnSetPurged(p, zsets, LeasesOf(s, t), now, r);
        }
      } else {
        OtherLeases(p, s, now, r, t);
        SetsOfOthers(p, zsets, now, r, allowed, t);
      }
    }
  }

  lemma RefusedMatches(p: Params, hashes: map<Key, Hash>, zsets: map<string, Zset>, s: State, now: int, r: Request,
      after: map<string, Zset>)
    requires Matches(p, hashes, zsets, s, now) && Waits(p, s, now, r).limit != NoLimit
        && after == SetsAfter(p, zsets, now, r, false)
    ensures Allow(p, s, now, r).1 == Waits(p, s, now, r)
    ensures Matches(p, hashes, after, Allow(p, s, now, r).0, now)
  {
    AllowParts(p, s, now, r);
    LeasesAfter(p, zsets, s, now, r);
  }

  /** Charging what is there leaves every bucket in range. */
  lemma ChargedSettled(p: Params, s: State, now: int, r: Request)
    requires InRange(p, now) && Bounded(r) && Settled(p, s.buckets, now) && Waits(p, s, now, r).limit == NoLimit
    ensures Settled(p, ChargeEach(p, s.buckets, now, r), now)
  {
    var after := ChargeEach(p, s.buckets, now, r);
    AllowParts(p, s, now, r);
    forall k | k in after ensures 0 <= after[k].at <= now && 0 <= after[k].level <= LARGEST {
      ChargeSets(p, s.buckets, now, r, k);
      AllOrNothing(p, s, now, r, k);
      if QuotaFor(r, k) > 0 { ChargedInRange(p, s.buckets, now, k, QuotaFor(r, k), CostFor(r, k)); }
    }
  }

  lemma ChargedInRange(p: Params, buckets: map<Key, Bucket>, now: int, key: Key, quota: int, cost: int)
    requires InRange(p, now) && Settled(p, buckets, now) && 0 < quota <= MAX_QUOTA && cost >= 0
    requires Level(p, buckets, key, now, quota) >= Need(cost, Capacity(p, quota))
    ensures 0 <= Level(p, buckets, key, now, quota) - Need(cost, Capacity(p, quota)) <= LARGEST
        && 0 <= Stamp(buckets, key, now) <= now
  {
    LevelBounds(p, buckets, key, now, quota);
  }

  lemma AdmittedMatches(p: Params, hashes: map<Key, Hash>, zsets: map<string, Zset>, s: State, now: int, r: Request,
                        charged: map<Key, Hash>, after: map<string, Zset>)
    requires Matches(p, hashes, zsets, s, now) && Bounded(r) && Waits(p, s, now, r).limit == NoLimit
    requires charged == Image(p, ChargeEach(p, s.buckets, now, r)) && after == SetsAfter(p, zsets, now, r, true)
    ensures Allow(p, s, now, r).1 == Outcome(true, NoLimit, 0)
    ensures Matches(p, charged, after, Allow(p, s, now, r).0, now)
  {
    AllowParts(p, s, now, r);
    ChargedSettled(p, s, now, r);
    LeasesAfter(p, zsets, s, now, r);
  }
}
