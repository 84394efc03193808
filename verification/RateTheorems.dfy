/** What the rate limiter promises over whole call sequences: the rate bound under any clock, the lease bound, an exact
    retry hint, and isolation between tenants. */
module RateTheorems {
  import opened Prelude
  import opened RateModel

  datatype Call =
    | AllowAt(now: int, r: Request)
    | ReleaseOf(tenant: string, leaseId: string)
    | RenewAt(now: int, tenant: string, leaseId: string)

  datatype Reply = Decided(outcome: Outcome) | Done(held: bool)

  function Apply(p: Params, s: State, c: Call): (State, Reply) {
    match c
    case AllowAt(now, r) => var a := Allow(p, s, now, r); (a.0, Decided(a.1))
    case ReleaseOf(t, id) => var a := Release(s, t, id); (a.0, Done(a.1))
    case RenewAt(now, t, id) => var a := Renew(p, s, now, t, id); (a.0, Done(a.1))
  }

  function After(p: Params, s: State, calls: seq<Call>): State
    decreases |calls|
  {
    if calls == [] then s else After(p, Apply(p, s, calls[0]).0, calls[1..])
  }

  // ------------------------------------------------------------------ what one call does to one bucket

  function QuotaFor(r: Request, key: Key): int {
    match key
    case Requests(t) => if t == r.tenant then r.requestsPerMinute else 0
    case Tokens(t) => if t == r.tenant then r.tokensPerMinute else 0
    case PerModel(m) => if m == r.model then r.modelRequestsPerMinute else 0
  }

  function CostFor(r: Request, key: Key): int { if key.Tokens? then r.cost else 1 }

  /** The scaled units a call charges to a bucket. */
  function Charged(p: Params, s: State, c: Call, key: Key): int {
    if c.AllowAt? && Allow(p, s, c.now, c.r).1.allowed && QuotaFor(c.r, key) > 0
    then Need(CostFor(c.r, key), Capacity(p, QuotaFor(c.r, key))) else 0
  }

  lemma ChargeSets(p: Params, buckets: map<Key, Bucket>, now: int, r: Request, key: Key)
    ensures var b := ChargeEach(p, buckets, now, r);
            if QuotaFor(r, key) > 0
            then key in b && b[key]
                == Bucket(Level(p, buckets, key, now, QuotaFor(r, key)) - Need(CostFor(r, key),
                Capacity(p, QuotaFor(r, key))), Stamp(buckets, key, now))
            else (key in b <==> key in buckets) && (key in b ==> b[key] == buckets[key])
  {
  }

  /** All or nothing: a refused call charges no bucket; an admitted one charges every active quota its full need, and
      each of them had it. */
  lemma AllOrNothing(p: Params, s: State, now: int, r: Request, key: Key)
    ensures var (t, o) := Allow(p, s, now, r);
            && (!o.allowed ==> t.buckets == s.buckets && o.limit != NoLimit && o.retryMs > 0)
            && (o.allowed && QuotaFor(r, key) > 0 ==>
                  && Level(p, s.buckets, key, now, QuotaFor(r, key)) >= Need(CostFor(r, key),
                      Capacity(p, QuotaFor(r, key)))
                  && key in t.buckets
                  && t.buckets[key] == Bucket(Level(p, s.buckets, key, now, QuotaFor(r, key)) - Need(CostFor(r, key),
                      Capacity(p, QuotaFor(r, key))),
                                              Stamp(s.buckets, key, now)))
            && (o.allowed && QuotaFor(r, key) <= 0 ==>
                  (key in t.buckets <==> key in s.buckets) && (key in s.buckets ==> t.buckets[key] == s.buckets[key]))
  {
    WorstIsWaits(p, s, now, r);
    ChargeAllIsEach(p, s.buckets, now, r);
    ChargeSets(p, s.buckets, now, r, key);
    WaitPositive(p, s.buckets, Requests(r.tenant), now, r.requestsPerMinute, 1);
    WaitPositive(p, s.buckets, Tokens(r.tenant), now, r.tokensPerMinute, r.cost);
    WaitPositive(p, s.buckets, PerModel(r.model), now, r.modelRequestsPerMinute, 1);
  }

  lemma CeilDivBounds(a: int, b: int)
    requires a > 0 && b > 0
    ensures CeilDiv(a, b) > 0 && (CeilDiv(a, b) - 1) * b < a <= CeilDiv(a, b) * b
  {
    var x, q := a + b - 1, CeilDiv(a, b);
    assert x == q * b + x % b && 0 <= x % b < b;
  }

  lemma WaitPositive(p: Params, buckets: map<Key, Bucket>, key: Key, now: int, quota: int, cost: int)
    ensures quota > 0 ==> (WaitFor(p, buckets, key, now, quota, cost) > 0
        <==> Level(p, buckets, key, now, quota) < Need(cost, Capacity(p, quota)))
    ensures WaitFor(p, buckets, key, now, quota, cost) >= 0
  {
    if quota > 0 {
      var level, need := Level(p, buckets, key, now, quota), Need(cost, Capacity(p, quota));
      if level < need { CeilDivBounds(need - level, quota); }
    }
  }

  // ------------------------------------------------------------------ the rate bound

  /** Every request that names the bucket gives it the same quota. */
  ghost predicate FixedQuota(calls: seq<Call>, key: Key, quota: int) {
    quota > 0 && forall i :: 0 <= i < |calls| && calls[i].AllowAt? && QuotaFor(calls[i].r, key) > 0
                             ==> QuotaFor(calls[i].r, key) == quota
  }

  function TotalCharged(p: Params, s: State, calls: seq<Call>, key: Key): int
    decreases |calls|
  {
    if calls == [] then 0 else Charged(p, s, calls[0], key) + TotalCharged(p, Apply(p, s, calls[0]).0, calls[1..], key)
  }

  /** A refill is at most the quota times the time the stamp advances. */
  lemma RefillBound(p: Params, buckets: map<Key, Bucket>, key: Key, now: int, quota: int)
    requires key in buckets && quota > 0
    ensures Level(p, buckets, key, now, quota) <= buckets[key].level
        + quota * (Stamp(buckets, key, now) - buckets[key].at)
    ensures buckets[key].at <= Stamp(buckets, key, now)
  {
    var e := Max(now - buckets[key].at, 0);
    assert Min(e, Window(p)) * quota <= e * quota;
    assert e == Stamp(buckets, key, now) - buckets[key].at;
  }

  /** One call: what it charges and what it leaves are paid for by the old level and the time the stamp advanced. */
  lemma CallIsPaidFor(p: Params, s: State, c: Call, key: Key, quota: int)
    requires quota > 0 && key in s.buckets && (c.AllowAt? && QuotaFor(c.r, key) > 0 ==> QuotaFor(c.r, key) == quota)
    ensures var t := Apply(p, s, c).0;
            && key in t.buckets && s.buckets[key].at <= t.buckets[key].at
            && Charged(p, s, c, key) + t.buckets[key].level <= s.buckets[key].level
                + quota * (t.buckets[key].at - s.buckets[key].at)
            && (s.buckets[key].level >= 0 ==> t.buckets[key].level >= 0)
  {
    if c.AllowAt? {
      AllOrNothing(p, s, c.now, c.r, key);
      RefillBound(p, s.buckets, key, c.now, quota);
    }
  }

  /** From a bucket that exists, nothing is charged that was not there or refilled, whatever the clock does. */
  lemma {:induction false} ChargesArePaidFor(p: Params, s: State, calls: seq<Call>, key: Key, quota: int)
    requires FixedQuota(calls, key, quota) && key in s.buckets
    ensures var t := After(p, s, calls);
            && key in t.buckets && s.buckets[key].at <= t.buckets[key].at
            && TotalCharged(p, s, calls, key) + t.buckets[key].level <= s.buckets[key].level
                + quota * (t.buckets[key].at - s.buckets[key].at)
            && (s.buckets[key].level >= 0 ==> t.buckets[key].level >= 0)
    decreases |calls|
  {
    if calls != [] {
      CallIsPaidFor(p, s, calls[0], key, quota);
      var s1 := Apply(p, s, calls[0]).0;
      assert forall i :: 0 <= i < |calls[1..]| ==> calls[1..][i] == calls[i + 1];
      ChargesArePaidFor(p, s1, calls[1..], key, quota);
      var t := After(p, s, calls);
      assert quota * (t.buckets[key].at - s1.buckets[key].at) + quota * (s1.buckets[key].at - s.buckets[key].at)
          == quota * (t.buckets[key].at - s.buckets[key].at);
    }
  }

  /** The stamp of the first charge to a bucket that does not exist yet. */
  function FirstStamp(p: Params, s: State, calls: seq<Call>, key: Key): int
    decreases |calls|
  {
    if calls == [] then 0
    else
      var s1 := Apply(p, s, calls[0]).0;
      if key in s1.buckets then s1.buckets[key].at else FirstStamp(p, s1, calls[1..], key)
  }

  lemma FixedRest(calls: seq<Call>, key: Key, quota: int)
    requires FixedQuota(calls, key, quota) && calls != []
    ensures FixedQuota(calls[1..], key, quota)
  {
  }

  /** The first call that touches a bucket finds it full. */
  lemma FirstCharge(p: Params, s: State, c: Call, key: Key, quota: int)
    requires quota > 0 && key !in s.buckets && (c.AllowAt? && QuotaFor(c.r, key) > 0 ==> QuotaFor(c.r, key) == quota)
    ensures var t := Apply(p, s, c).0;
            if key in t.buckets then Charged(p, s, c, key) + t.buckets[key].level == Capacity(p, quota)
                && t.buckets[key].level >= 0 else Charged(p, s, c, key) == 0
  {
    if c.AllowAt? { AllOrNothing(p, s, c.now, c.r, key); }
  }

  /** The rate bound: from the empty bucket, the units charged over any run are at most one full bucket plus the quota
      times the span of its stamps, even when the clock steps back. */
  lemma {:induction false} RateBound(p: Params, s: State, calls: seq<Call>, key: Key, quota: int)
    requires FixedQuota(calls, key, quota) && key !in s.buckets
    ensures var t := After(p, s, calls);
            if key in t.buckets
            then TotalCharged(p, s, calls, key) <= Capacity(p, quota)
                + quota * (t.buckets[key].at - FirstStamp(p, s, calls, key))
            else TotalCharged(p, s, calls, key) == 0
    decreases |calls|
  {
    if calls != [] {
      var c, s1 := calls[0], Apply(p, s, calls[0]).0;
      FirstCharge(p, s, c, key, quota);
      FixedRest(calls, key, quota);
      if key in s1.buckets {
        ChargesArePaidFor(p, s1, calls[1..], key, quota);
        assert FirstStamp(p, s, calls, key) == s1.buckets[key].at;
      } else {
        RateBound(p, s1, calls[1..], key, quota);
        assert FirstStamp(p, s, calls, key) == FirstStamp(p, s1, calls[1..], key);
      }
    }
  }

  // ------------------------------------------------------------------ the lease bound

  /** Every check of the tenant asks for the same concurrency. */
  ghost predicate FixedConcurrency(calls: seq<Call>, tenant: string, most: int) {
    most > 0 && forall i :: 0 <= i < |calls| && calls[i].AllowAt? && calls[i].r.tenant == tenant
                            ==> calls[i].r.maxConcurrent == most
  }

  lemma UnexpiredSize(held: map<string, int>, now: int)
    ensures |Unexpired(held, now)| <= |held|
  {
    SubsetSize(Unexpired(held, now).Keys, held.Keys);
  }

  lemma SubsetSize<T>(a: set<T>, b: set<T>)
    requires a <= b
    ensures |a| <= |b|
  {
    assert b == a + (b - a);
  }

  lemma PutSize(held: map<string, int>, id: string, exp: int)
    ensures |held[id := exp]| <= |held| + 1 && (id in held ==> |held[id := exp]| == |held|)
  {
    assert held[id := exp].Keys == held.Keys + {id};
  }

  lemma {:induction false} LeaseBound(p: Params, s: State, calls: seq<Call>, tenant: string, most: int)
    requires FixedConcurrency(calls, tenant, most) && |LeasesOf(s, tenant)| <= most
    ensures |LeasesOf(After(p, s, calls), tenant)| <= most
    decreases |calls|
  {
    if calls != [] {
      var c, s1 := calls[0], Apply(p, s, calls[0]).0;
      assert |LeasesOf(s1, tenant)| <= most by { OneCallKeepsLeases(p, s, c, tenant, most); }
      LeaseBound(p, s1, calls[1..], tenant, most);
    }
  }

  /** What a check leaves of its tenant's leases. */
  function HeldAfter(p: Params, held: map<string, int>, now: int, r: Request, allowed: bool): map<string, int> {
    if r.maxConcurrent <= 0 then held
    else if allowed then Unexpired(held, now)[r.leaseId := now + p.leaseTtlMs]
    else Unexpired(held, now)
  }

  lemma AllowLeases(p: Params, s: State, now: int, r: Request)
    ensures var (t, o) := Allow(p, s, now, r);
        LeasesOf(t, r.tenant) == HeldAfter(p, LeasesOf(s, r.tenant), now, r, o.allowed)
  {
    WorstIsWaits(p, s, now, r);
    var held := LeasesOf(s, r.tenant);
    if r.maxConcurrent > 0 && r.tenant !in s.leases { assert Unexpired(held, now) == map[]; }
  }

  lemma OneCallKeepsLeases(p: Params, s: State, c: Call, tenant: string, most: int)
    requires most > 0 && |LeasesOf(s, tenant)| <= most
        && (c.AllowAt? && c.r.tenant == tenant ==> c.r.maxConcurrent == most)
    ensures |LeasesOf(Apply(p, s, c).0, tenant)| <= most
  {
    match c
    case AllowAt(now, r) => if r.tenant == tenant { CheckKeepsLeases(p, s, now, r); }
        else { OtherKeepsLeases(p, s, now, r, tenant); }
    case ReleaseOf(t, id) => ReleaseKeepsLeases(s, t, id, tenant);
    case RenewAt(now, t, id) => RenewKeepsLeases(p, s, now, t, id, tenant);
  }

  lemma OtherKeepsLeases(p: Params, s: State, now: int, r: Request, tenant: string)
    requires r.tenant != tenant
    ensures LeasesOf(Allow(p, s, now, r).0, tenant) == LeasesOf(s, tenant)
  {
  }

  lemma ReleaseKeepsLeases(s: State, t: string, id: string, tenant: string)
    ensures |LeasesOf(Release(s, t, id).0, tenant)| <= |LeasesOf(s, tenant)|
  {
    var held := LeasesOf(s, tenant);
    SubsetSize(held.Keys - {id}, held.Keys);
    assert (held - {id}).Keys == held.Keys - {id};
  }

  lemma RenewKeepsLeases(p: Params, s: State, now: int, t: string, id: string, tenant: string)
    ensures |LeasesOf(Renew(p, s, now, t, id).0, tenant)| <= |LeasesOf(s, tenant)|
  {
    PutSize(LeasesOf(s, tenant), id, now + p.leaseTtlMs);
  }

  lemma CheckKeepsLeases(p: Params, s: State, now: int, r: Request)
    requires r.maxConcurrent > 0 && |LeasesOf(s, r.tenant)| <= r.maxConcurrent
    ensures |LeasesOf(Allow(p, s, now, r).0, r.tenant)| <= r.maxConcurrent
  {
    var live := Unexpired(LeasesOf(s, r.tenant), now);
    AllowLeases(p, s, now, r);
    UnexpiredSize(LeasesOf(s, r.tenant), now);
    PutSize(live, r.leaseId, now + p.leaseTtlMs);
    if Allow(p, s, now, r).1.allowed { AdmittedHasRoom(p, s, now, r); }
  }

  lemma AdmittedHasRoom(p: Params, s: State, now: int, r: Request)
    requires r.maxConcurrent > 0 && Allow(p, s, now, r).1.allowed
    ensures |Unexpired(LeasesOf(s, r.tenant), now)| < r.maxConcurrent
  {
    WorstIsWaits(p, s, now, r);
  }

  // ------------------------------------------------------------------ the retry hint

  /** A bucket's level as arithmetic, for a capacity of `quota * window`. */
  function Refilled(level: int, elapsed: int, window: int, quota: int): int {
    Min(level + Min(Max(elapsed, 0), window) * quota, quota * window)
  }

  lemma TimesMonotone(a: int, b: int, quota: int)
    requires a <= b && quota > 0
    ensures a * quota <= b * quota
  {
  }

  /** A level that is not negative is full after the window, so the window's bound on the elapsed time never shows. */
  lemma RefilledBounds(level: int, elapsed: int, window: int, quota: int)
    requires level >= 0 && quota > 0 && window >= 0
    ensures Refilled(level, elapsed, window, quota) == Min(level + Gain(elapsed, quota), quota * window)
  {
    var e := Max(elapsed, 0);
    TimesMonotone(Min(e, window), e, quota);
    if e > window { TimesMonotone(window, e, quota); }
  }

  function Gain(elapsed: int, quota: int): int { Max(elapsed, 0) * quota }

  lemma GainLater(elapsed: int, d: int, w: int, quota: int)
    requires quota > 0 && 0 <= d <= w && 0 < w
    ensures Gain(elapsed, quota) >= 0 && 0 <= (w - 1) * quota < w * quota
    ensures elapsed >= 0 ==> Gain(elapsed + d, quota) == Gain(elapsed, quota) + d * quota
    ensures elapsed < 0 ==> Gain(elapsed, quota) == 0 && 0 <= Gain(elapsed + d, quota) <= (w - 1) * quota
  {
    TimesMonotone(0, w - 1, quota);
    TimesMonotone(0, Max(elapsed, 0), quota);
    if elapsed < 0 {
      TimesMonotone(0, Max(elapsed + d, 0), quota);
      TimesMonotone(Max(elapsed + d, 0), w - 1, quota);
    }
  }

  lemma HintLinear(level: int, cap: int, need: int, g: int, gw: int, gv: int, wq: int, vq: int, onTime: bool)
    requires level >= 0 && g >= 0 && 0 <= vq < wq && need <= cap && vq < need - Min(level + g, cap) <= wq
    requires onTime ==> gw == g + wq && gv == g + vq
    requires !onTime ==> g == 0 && gw <= vq && gv <= vq
    ensures Min(level + gw, cap) >= need <==> onTime
    ensures Min(level + gv, cap) < need
  {
  }

  /** The arithmetic of the hint, on one bucket: `elapsed` is how far the clock is past the stamp. */
  lemma HintArithmetic(level: int, elapsed: int, window: int, quota: int, need: int, w: int)
    requires level >= 0 && quota > 0 && window >= 0 && w > 0 && need <= quota * window
    requires var short := need - Refilled(level, elapsed, window, quota); (w - 1) * quota < short <= w * quota
    ensures Refilled(level, elapsed + w, window, quota) >= need <==> elapsed >= 0
    ensures Refilled(level, elapsed + w - 1, window, quota) < need
  {
    RefilledBounds(level, elapsed, window, quota);
    RefilledBounds(level, elapsed + w, window, quota);
    RefilledBounds(level, elapsed + w - 1, window, quota);
    GainLater(elapsed, w, w, quota);
    GainLater(elapsed, w - 1, w, quota);
    HintLinear(level, quota * window, need, Gain(elapsed, quota), Gain(elapsed + w, quota),
        Gain(elapsed + w - 1, quota),
               w * quota, (w - 1) * quota, elapsed >= 0);
  }

  /** Exactly when a bucket's hint is right: the request fits after the wait if and only if the bucket's stamp is not
      ahead of the clock; and it never fits one millisecond earlier. */
  lemma HintIsExact(p: Params, buckets: map<Key, Bucket>, key: Key, now: int, quota: int, cost: int)
    requires key in buckets ==> buckets[key].level >= 0
    requires WaitFor(p, buckets, key, now, quota, cost) > 0
    ensures key in buckets
    ensures var w := WaitFor(p, buckets, key, now, quota, cost);
            && (WaitFor(p, buckets, key, now + w, quota, cost) == 0 <==> buckets[key].at <= now)
            && WaitFor(p, buckets, key, now + w - 1, quota, cost) > 0
  {
    var need, w := Need(cost, Capacity(p, quota)), WaitFor(p, buckets, key, now, quota, cost);
    WaitPositive(p, buckets, key, now, quota, cost);
    CeilDivBounds(need - Level(p, buckets, key, now, quota), quota);
    HintArithmetic(buckets[key].level, now - buckets[key].at, Window(p), quota, need, w);
    WaitPositive(p, buckets, key, now + w, quota, cost);
    WaitPositive(p, buckets, key, now + w - 1, quota, cost);
  }

  /** No level is below zero: kept by every call. */
  ghost predicate Solvent(s: State) { forall key :: key in s.buckets ==> s.buckets[key].level >= 0 }

  lemma SolventStays(p: Params, s: State, c: Call)
    requires Solvent(s)
    ensures Solvent(Apply(p, s, c).0)
  {
    var t := Apply(p, s, c).0;
    forall key | key in t.buckets ensures t.buckets[key].level >= 0 {
      if c.AllowAt? { AllOrNothing(p, s, c.now, c.r, key); }
    }
  }

  ghost predicate StampsNotAhead(s: State, now: int, r: Request) {
    forall key :: key in s.buckets && QuotaFor(r, key) > 0 ==> s.buckets[key].at <= now
  }

  /** A bucket whose stamp is not ahead of the clock never refuses again what it has once admitted. */
  lemma LevelGrows(level: int, elapsed: int, later: int, window: int, quota: int)
    requires level >= 0 && quota > 0 && window >= 0 && elapsed <= later
    ensures Refilled(level, elapsed, window, quota) <= Refilled(level, later, window, quota)
  {
    RefilledBounds(level, elapsed, window, quota);
    RefilledBounds(level, later, window, quota);
    TimesMonotone(Max(elapsed, 0), Max(later, 0), quota);
  }

  lemma AdmitsLater(p: Params, buckets: map<Key, Bucket>, key: Key, now: int, quota: int, cost: int, d: int)
    requires quota > 0 && key in buckets ==> buckets[key].at <= now && buckets[key].level >= 0
    requires d >= WaitFor(p, buckets, key, now, quota, cost)
    ensures WaitFor(p, buckets, key, now + d, quota, cost) == 0
  {
    if quota > 0 && key in buckets {
      var w := WaitFor(p, buckets, key, now, quota, cost);
      WaitPositive(p, buckets, key, now, quota, cost);
      if w > 0 { HintIsExact(p, buckets, key, now, quota, cost); }
      WaitPositive(p, buckets, key, now + w, quota, cost);
      LevelGrows(buckets[key].level, now + w - buckets[key].at, now + d - buckets[key].at, Window(p), quota);
    }
  }

  lemma HintCoversEveryWait(p: Params, s: State, now: int, r: Request)
    requires !Allow(p, s, now, r).1.allowed
    ensures var d := Allow(p, s, now, r).1.retryMs;
            && d >= WaitFor(p, s.buckets, Requests(r.tenant), now, r.requestsPerMinute, 1)
            && d >= WaitFor(p, s.buckets, Tokens(r.tenant), now, r.tokensPerMinute, r.cost)
            && d >= WaitFor(p, s.buckets, PerModel(r.model), now, r.modelRequestsPerMinute, 1)
  {
    WorstIsWaits(p, s, now, r);
  }

  /** The hint of a refused call is sufficient: with no other traffic, every bucket admits the same request when the
      hint has passed. */
  lemma HintSuffices(p: Params, s: State, now: int, r: Request, key: Key)
    requires !Allow(p, s, now, r).1.allowed && StampsNotAhead(s, now, r) && Solvent(s)
    ensures var (t, o) := Allow(p, s, now, r);
            t.buckets == s.buckets && WaitFor(p, t.buckets, key, now + o.retryMs, QuotaFor(r, key), CostFor(r, key))
                == 0
  {
    HintCoversEveryWait(p, s, now, r);
    AllOrNothing(p, s, now, r, key);
    AdmitsLater(p, s.buckets, key, now, QuotaFor(r, key), CostFor(r, key), Allow(p, s, now, r).1.retryMs);
  }

  function ReportedKey(r: Request, limit: Limit): Key {
    if limit == LimitRequests then Requests(r.tenant) else if limit == LimitTokens then Tokens(r.tenant)
        else PerModel(r.model)
  }

  /** The hint is tight: one millisecond earlier the bucket it was reported for still refuses. */
  lemma HintIsTight(p: Params, s: State, now: int, r: Request)
    requires var o := Allow(p, s, now, r).1; !o.allowed && o.limit != LimitConcurrency
    requires Solvent(s)
    ensures var o := Allow(p, s, now, r).1; var key := ReportedKey(r, o.limit);
            WaitFor(p, s.buckets, key, now + o.retryMs - 1, QuotaFor(r, key), CostFor(r, key)) > 0
  {
    WorstIsWaits(p, s, now, r);
    var o := Allow(p, s, now, r).1;
    var key := ReportedKey(r, o.limit);
    WaitPositive(p, s.buckets, Requests(r.tenant), now, r.requestsPerMinute, 1);
    WaitPositive(p, s.buckets, Tokens(r.tenant), now, r.tokensPerMinute, r.cost);
    WaitPositive(p, s.buckets, PerModel(r.model), now, r.modelRequestsPerMinute, 1);
    assert o.retryMs == WaitFor(p, s.buckets, key, now, QuotaFor(r, key), CostFor(r, key));
    HintIsExact(p, s.buckets, key, now, QuotaFor(r, key), CostFor(r, key));
  }

  // ------------------------------------------------------------------ isolation

  function TenantOf(c: Call): string {
    match c
    case AllowAt(_, r) => r.tenant
    case ReleaseOf(t, _) => t
    case RenewAt(_, t, _) => t
  }

  ghost predicate NoModelCap(c: Call) { c.AllowAt? ==> c.r.modelRequestsPerMinute <= 0 }

  ghost predicate SameBucket(a: State, b: State, key: Key) {
    (key in a.buckets <==> key in b.buckets) && (key in a.buckets ==> a.buckets[key] == b.buckets[key])
  }

  /** Two stores look the same to one tenant. */
  ghost predicate SameFor(a: State, b: State, tenant: string) {
    SameBucket(a, b, Requests(tenant)) && SameBucket(a, b, Tokens(tenant)) && LeasesOf(a, tenant) == LeasesOf(b, tenant)
  }

  /** A call of another tenant is invisible. */
  lemma OthersAreInvisible(p: Params, s: State, c: Call, tenant: string)
    requires TenantOf(c) != tenant && NoModelCap(c)
    ensures SameFor(s, Apply(p, s, c).0, tenant)
  {
    if c.AllowAt? {
      AllOrNothing(p, s, c.now, c.r, Requests(tenant));
      AllOrNothing(p, s, c.now, c.r, Tokens(tenant));
    }
  }

  lemma SameAnswers(p: Params, a: State, b: State, now: int, r: Request)
    requires SameFor(a, b, r.tenant) && r.modelRequestsPerMinute <= 0
    ensures Allow(p, a, now, r).1 == Allow(p, b, now, r).1
  {
    WorstIsWaits(p, a, now, r);
    WorstIsWaits(p, b, now, r);
  }

  lemma SameCharges(p: Params, a: State, b: State, now: int, r: Request, key: Key)
    requires SameBucket(a, b, key) && Allow(p, a, now, r).1 == Allow(p, b, now, r).1
    ensures SameBucket(Allow(p, a, now, r).0, Allow(p, b, now, r).0, key)
  {
    AllOrNothing(p, a, now, r, key);
    AllOrNothing(p, b, now, r, key);
  }

  lemma SameLeases(p: Params, a: State, b: State, now: int, r: Request)
    requires LeasesOf(a, r.tenant) == LeasesOf(b, r.tenant) && Allow(p, a, now, r).1 == Allow(p, b, now, r).1
    ensures LeasesOf(Allow(p, a, now, r).0, r.tenant) == LeasesOf(Allow(p, b, now, r).0, r.tenant)
  {
    AllowLeases(p, a, now, r);
    AllowLeases(p, b, now, r);
  }

  /** A call of the tenant gets the same answer from stores that look the same to it, and keeps them so. */
  lemma OwnCallsAgree(p: Params, a: State, b: State, c: Call, tenant: string)
    requires SameFor(a, b, tenant) && TenantOf(c) == tenant && NoModelCap(c)
    ensures Apply(p, a, c).1 == Apply(p, b, c).1
    ensures SameFor(Apply(p, a, c).0, Apply(p, b, c).0, tenant)
  {
    match c
    case AllowAt(now, r) =>
      SameAnswers(p, a, b, now, r);
      SameCharges(p, a, b, now, r, Requests(tenant));
      SameCharges(p, a, b, now, r, Tokens(tenant));
      SameLeases(p, a, b, now, r);
    case ReleaseOf(t, id) =>
    case RenewAt(now, t, id) =>
  }

  /** What the tenant is told over a call sequence. */
  function RepliesTo(p: Params, s: State, calls: seq<Call>, tenant: string): seq<Reply>
    decreases |calls|
  {
    if calls == [] then []
    else
      var a := Apply(p, s, calls[0]);
      (if TenantOf(calls[0]) == tenant then [a.1] else []) + RepliesTo(p, a.0, calls[1..], tenant)
  }

  function Own(calls: seq<Call>, tenant: string): seq<Call> {
    if calls == [] then [] else (if TenantOf(calls[0]) == tenant then [calls[0]] else []) + Own(calls[1..], tenant)
  }

  /** Tenant isolation: without model caps, what a tenant is told does not depend on the calls of others, whatever they
      are and however they are interleaved. */
  lemma {:induction false} TenantIsolation(p: Params, a: State, b: State, calls: seq<Call>, tenant: string)
    requires SameFor(a, b, tenant) && forall i :: 0 <= i < |calls| ==> NoModelCap(calls[i])
    ensures RepliesTo(p, a, calls, tenant) == RepliesTo(p, b, Own(calls, tenant), tenant)
    decreases |calls|
  {
    if calls != [] {
      var c, rest := calls[0], calls[1..];
      var a1 := Apply(p, a, c).0;
      if TenantOf(c) == tenant {
        OwnCallsAgree(p, a, b, c, tenant);
        TenantIsolation(p, a1, Apply(p, b, c).0, rest, tenant);
        assert Own(calls, tenant)[1..] == Own(rest, tenant);
      } else {
        OthersAreInvisible(p, a, c, tenant);
        TenantIsolation(p, a1, b, rest, tenant);
        assert Own(calls, tenant) == Own(rest, tenant);
      }
    }
  }
}
