/** The rate limiter's reference model (internal/ratelimit/model.go): token buckets in scaled integers and concurrency
    leases. A key of the store is the value it is built from; RateKeys shows that the spelled keys tell these apart. */
module RateModel {
  import opened Prelude

  const SCALE := 60000
  const CONCURRENCY_RETRY_MS := 1000

  datatype Params = Params(burstSeconds: nat, leaseTtlMs: nat)

  datatype Key = Requests(tenant: string) | Tokens(tenant: string) | PerModel(model: string)

  /** A level in scaled units and the millisecond of the last update. */
  datatype Bucket = Bucket(level: int, at: int)

  datatype Limit = NoLimit | LimitRequests | LimitTokens | LimitConcurrency | LimitModel

  datatype Outcome = Outcome(allowed: bool, limit: Limit, retryMs: int)

  datatype Request = Request(tenant: string, model: string, cost: nat, requestsPerMinute: int, tokensPerMinute: int,
                             maxConcurrent: int, modelRequestsPerMinute: int, leaseId: string)

  /** Buckets by key, and each tenant's leases with their expiry. */
  datatype State = State(buckets: map<Key, Bucket>, leases: map<string, map<string, int>>)

  const Empty: State := State(map[], map[])

  function Window(p: Params): nat { p.burstSeconds * 1000 }

  function Capacity(p: Params, quota: int): int { quota * Window(p) }

  /** peek: the level after refilling. A clock that went back refills nothing, and no refill exceeds the window. */
  function Level(p: Params, buckets: map<Key, Bucket>, key: Key, now: int, quota: int): int {
    if key !in buckets then Capacity(p, quota)
    else
      var elapsed := Min(Max(now - buckets[key].at, 0), Window(p));
      Min(buckets[key].level + elapsed * quota, Capacity(p, quota))
  }

  function Need(cost: int, capacity: int): int { Min(cost * SCALE, capacity) }

  function CeilDiv(a: int, b: int): int
    requires b > 0
  {
    (a + b - 1) / b
  }

  datatype Check = Check(limit: Limit, key: Key, quota: int, level: int, need: int)

  function OneCheck(p: Params, buckets: map<Key, Bucket>, now: int, limit: Limit, key: Key, quota: int,
      cost: int): seq<Check> {
    if quota <= 0 then []
        else [Check(limit, key, quota, Level(p, buckets, key, now, quota), Need(cost, Capacity(p, quota)))]
  }

  function Checks(p: Params, buckets: map<Key, Bucket>, now: int, r: Request): seq<Check> {
    OneCheck(p, buckets, now, LimitRequests, Requests(r.tenant), r.requestsPerMinute, 1)
    + OneCheck(p, buckets, now, LimitTokens, Tokens(r.tenant), r.tokensPerMinute, r.cost)
    + OneCheck(p, buckets, now, LimitModel, PerModel(r.model), r.modelRequestsPerMinute, 1)
  }

  function Consider(worst: Outcome, limit: Limit, wait: int): Outcome {
    if wait > worst.retryMs then Outcome(false, limit, wait) else worst
  }

  /** The worst of the refusing checks, those of the model's own cap (`model`) or the others. */
  function Scan(checks: seq<Check>, model: bool, worst: Outcome): Outcome
    requires forall i :: 0 <= i < |checks| ==> checks[i].quota > 0
  {
    if checks == [] then worst
    else
      var w, c := Scan(checks[..|checks| - 1], model, worst), checks[|checks| - 1];
      if c.level < c.need && (c.limit == LimitModel) == model
          then Consider(w, c.limit, CeilDiv(c.need - c.level, c.quota)) else w
  }

  function Stamp(buckets: map<Key, Bucket>, key: Key, now: int): int {
    if key in buckets then Max(buckets[key].at, now) else now
  }

  function ChargeAll(buckets: map<Key, Bucket>, checks: seq<Check>, now: int): map<Key, Bucket> {
    if checks == [] then buckets
    else
      var b, c := ChargeAll(buckets, checks[..|checks| - 1], now), checks[|checks| - 1];
      b[c.key := Bucket(c.level - c.need, Stamp(b, c.key, now))]
  }

  function LeasesOf(s: State, tenant: string): map<string, int> {
    if tenant in s.leases then s.leases[tenant] else map[]
  }

  function Unexpired(held: map<string, int>, now: int): map<string, int> {
    map id | id in held && held[id] > now :: held[id]
  }

  /** Leases after the purge that a concurrency check makes. */
  function Purged(s: State, now: int, r: Request): map<string, map<string, int>> {
    if r.maxConcurrent > 0 && r.tenant in s.leases then s.leases[r.tenant := Unexpired(s.leases[r.tenant], now)]
        else s.leases
  }

  function Worst(p: Params, s: State, now: int, r: Request): Outcome {
    var checks := Checks(p, s.buckets, now, r);
    var w := Scan(checks, false, Outcome(false, NoLimit, 0));
    var busy := r.maxConcurrent > 0 && |Unexpired(LeasesOf(s, r.tenant), now)| >= r.maxConcurrent;
    Scan(checks, true, if busy then Consider(w, LimitConcurrency, CONCURRENCY_RETRY_MS) else w)
  }

  /** Allow: every quota admits and all are charged, or none is. */
  function Allow(p: Params, s: State, now: int, r: Request): (State, Outcome) {
    var worst, leases := Worst(p, s, now, r), Purged(s, now, r);
    if worst.limit != NoLimit then (State(s.buckets, leases), worst)
    else
      var held := LeasesOf(State(s.buckets, leases), r.tenant);
      (State(ChargeAll(s.buckets, Checks(p, s.buckets, now, r), now),
             if r.maxConcurrent > 0 then leases[r.tenant := held[r.leaseId := now + p.leaseTtlMs]] else leases),
       Outcome(true, NoLimit, 0))
  }

  function Release(s: State, tenant: string, leaseId: string): (State, bool) {
    if tenant in s.leases && leaseId in s.leases[tenant]
    then (s.(leases := s.leases[tenant := s.leases[tenant] - {leaseId}]), true)
    else (s, false)
  }

  function Renew(p: Params, s: State, now: int, tenant: string, leaseId: string): (State, bool) {
    if tenant in s.leases && leaseId in s.leases[tenant] && s.leases[tenant][leaseId] > now
    then (s.(leases := s.leases[tenant := s.leases[tenant][leaseId := now + p.leaseTtlMs]]), true)
    else (s, false)
  }

  // ------------------------------------------------------------------ the same, check by check

  /** Milliseconds until a quota admits; 0 when it does now or is not limited. */
  function WaitFor(p: Params, buckets: map<Key, Bucket>, key: Key, now: int, quota: int, cost: int): int {
    if quota <= 0 then 0
    else
      var level, need := Level(p, buckets, key, now, quota), Need(cost, Capacity(p, quota));
      if level < need then CeilDiv(need - level, quota) else 0
  }

  function Charge(p: Params, buckets: map<Key, Bucket>, key: Key, now: int, quota: int, cost: int): map<Key, Bucket> {
    if quota <= 0 then buckets
    else buckets[key := Bucket(Level(p, buckets, key, now, quota) - Need(cost, Capacity(p, quota)),
        Stamp(buckets, key, now))]
  }

  lemma {:induction false} ScanAppend(a: seq<Check>, b: seq<Check>, model: bool, worst: Outcome)
    requires forall i :: 0 <= i < |a + b| ==> (a + b)[i].quota > 0
    ensures (forall i :: 0 <= i < |a| ==> a[i].quota > 0) && (forall i :: 0 <= i < |b| ==> b[i].quota > 0)
    ensures Scan(a + b, model, worst) == Scan(b, model, Scan(a, model, worst))
  {
    forall i | 0 <= i < |a| ensures a[i].quota > 0 { assert (a + b)[i] == a[i]; }
    forall i | 0 <= i < |b| ensures b[i].quota > 0 { assert (a + b)[|a| + i] == b[i]; }
    if b == [] {
      assert a + b == a;
    } else {
      var c := b[..|b| - 1];
      assert (a + b)[..|a + b| - 1] == a + c;
      ScanAppend(a, c, model, worst);
    }
  }

  lemma {:induction false} ChargeAppend(buckets: map<Key, Bucket>, a: seq<Check>, b: seq<Check>, now: int)
    ensures ChargeAll(buckets, a + b, now) == ChargeAll(ChargeAll(buckets, a, now), b, now)
  {
    if b == [] {
      assert a + b == a;
    } else {
      assert (a + b)[..|a + b| - 1] == a + b[..|b| - 1];
      ChargeAppend(buckets, a, b[..|b| - 1], now);
    }
  }

  lemma ScanOne(p: Params, buckets: map<Key, Bucket>, now: int, limit: Limit, key: Key, quota: int, cost: int,
      model: bool, worst: Outcome)
    requires worst.retryMs >= 0
    ensures Scan(OneCheck(p, buckets, now, limit, key, quota, cost), model, worst)
         == if (limit == LimitModel) == model then Consider(worst, limit, WaitFor(p, buckets, key, now, quota, cost))
             else worst
  {
    var c := OneCheck(p, buckets, now, limit, key, quota, cost);
    if quota > 0 { assert c[..|c| - 1] == []; }
  }

  lemma ScanChecks(p: Params, buckets: map<Key, Bucket>, now: int, r: Request, model: bool, w0: Outcome)
    requires w0.retryMs >= 0
    ensures Scan(Checks(p, buckets, now, r), model, w0)
         == if model then Consider(w0, LimitModel,
             WaitFor(p, buckets, PerModel(r.model), now, r.modelRequestsPerMinute, 1))
            else Consider(Consider(w0, LimitRequests,
                WaitFor(p, buckets, Requests(r.tenant), now, r.requestsPerMinute, 1)),
                          LimitTokens, WaitFor(p, buckets, Tokens(r.tenant), now, r.tokensPerMinute, r.cost))
  {
    var a := OneCheck(p, buckets, now, LimitRequests, Requests(r.tenant), r.requestsPerMinute, 1);
    var b := OneCheck(p, buckets, now, LimitTokens, Tokens(r.tenant), r.tokensPerMinute, r.cost);
    var c := OneCheck(p, buckets, now, LimitModel, PerModel(r.model), r.modelRequestsPerMinute, 1);
    ScanAppend(a + b, c, model, w0);
    ScanAppend(a, b, model, w0);
    ScanOne(p, buckets, now, LimitRequests, Requests(r.tenant), r.requestsPerMinute, 1, model, w0);
    ScanOne(p, buckets, now, LimitTokens, Tokens(r.tenant), r.tokensPerMinute, r.cost, model, Scan(a, model, w0));
    ScanOne(p, buckets, now, LimitModel, PerModel(r.model), r.modelRequestsPerMinute, 1, model,
        Scan(b, model, Scan(a, model, w0)));
  }

  /** The answer as four waits, considered in the order requests, tokens, concurrency, model. */
  function Waits(p: Params, s: State, now: int, r: Request): Outcome {
    var w1 := Consider(Outcome(false, NoLimit, 0), LimitRequests,
        WaitFor(p, s.buckets, Requests(r.tenant), now, r.requestsPerMinute, 1));
    var w2 := Consider(w1, LimitTokens, WaitFor(p, s.buckets, Tokens(r.tenant), now, r.tokensPerMinute, r.cost));
    var busy := r.maxConcurrent > 0 && |Unexpired(LeasesOf(s, r.tenant), now)| >= r.maxConcurrent;
    var w3 := if busy then Consider(w2, LimitConcurrency, CONCURRENCY_RETRY_MS) else w2;
    Consider(w3, LimitModel, WaitFor(p, s.buckets, PerModel(r.model), now, r.modelRequestsPerMinute, 1))
  }

  lemma WorstIsWaits(p: Params, s: State, now: int, r: Request)
    ensures Worst(p, s, now, r) == Waits(p, s, now, r)
  {
    var w0 := Outcome(false, NoLimit, 0);
    ScanChecks(p, s.buckets, now, r, false, w0);
    var w2 := Scan(Checks(p, s.buckets, now, r), false, w0);
    var busy := r.maxConcurrent > 0 && |Unexpired(LeasesOf(s, r.tenant), now)| >= r.maxConcurrent;
    ScanChecks(p, s.buckets, now, r, true, if busy then Consider(w2, LimitConcurrency, CONCURRENCY_RETRY_MS) else w2);
  }

  function ChargeEach(p: Params, buckets: map<Key, Bucket>, now: int, r: Request): map<Key, Bucket> {
    var b1 := Charge(p, buckets, Requests(r.tenant), now, r.requestsPerMinute, 1);
    var b2 := Charge(p, b1, Tokens(r.tenant), now, r.tokensPerMinute, r.cost);
    Charge(p, b2, PerModel(r.model), now, r.modelRequestsPerMinute, 1)
  }

  lemma ChargeOne(p: Params, buckets: map<Key, Bucket>, sofar: map<Key, Bucket>, now: int, limit: Limit, key: Key,
      quota: int, cost: int)
    requires (key in sofar <==> key in buckets) && (key in buckets ==> sofar[key] == buckets[key])
    ensures ChargeAll(sofar, OneCheck(p, buckets, now, limit, key, quota, cost), now)
        == Charge(p, sofar, key, now, quota, cost)
  {
    var c := OneCheck(p, buckets, now, limit, key, quota, cost);
    if quota > 0 { assert c[..|c| - 1] == []; }
  }

  lemma ChargeAllIsEach(p: Params, buckets: map<Key, Bucket>, now: int, r: Request)
    ensures ChargeAll(buckets, Checks(p, buckets, now, r), now) == ChargeEach(p, buckets, now, r)
  {
    var a := OneCheck(p, buckets, now, LimitRequests, Requests(r.tenant), r.requestsPerMinute, 1);
    var b := OneCheck(p, buckets, now, LimitTokens, Tokens(r.tenant), r.tokensPerMinute, r.cost);
    var c := OneCheck(p, buckets, now, LimitModel, PerModel(r.model), r.modelRequestsPerMinute, 1);
    ChargeAppend(buckets, a + b, c, now);
    ChargeAppend(buckets, a, b, now);
    ChargeOne(p, buckets, buckets, now, LimitRequests, Requests(r.tenant), r.requestsPerMinute, 1);
    var b1 := Charge(p, buckets, Requests(r.tenant), now, r.requestsPerMinute, 1);
    ChargeOne(p, buckets, b1, now, LimitTokens, Tokens(r.tenant), r.tokensPerMinute, r.cost);
    ChargeOne(p, buckets, Charge(p, b1, Tokens(r.tenant), now, r.tokensPerMinute, r.cost), now, LimitModel,
        PerModel(r.model), r.modelRequestsPerMinute, 1);
  }

  // ------------------------------------------------------------------ the implementation

  /** Remove the leases that have expired, one by one. */
  method Purge(held: map<string, int>, now: int) returns (left: map<string, int>)
    ensures left == Unexpired(held, now)
  {
    left := held;
    var todo := held.Keys;
    while todo != {}
      invariant todo <= held.Keys
      invariant left.Keys <= held.Keys && forall id :: id in held ==> (id in left <==> id in todo || held[id] > now)
      invariant forall id :: id in left ==> left[id] == held[id]
      decreases |todo|
    {
      var id :| id in todo;
      todo := todo - {id};
      if held[id] <= now { left := left - {id}; }
    }
  }

  class Model {
    const p: Params
    var buckets: map<Key, Bucket>
    var leases: map<string, map<string, int>>

    constructor (p: Params)
      ensures this.p == p && St() == Empty
    {
      this.p := p;
      buckets, leases := map[], map[];
    }

    function St(): State
      reads this
    {
      State(buckets, leases)
    }

    method ScanLoop(checks: seq<Check>, model: bool, from: Outcome) returns (worst: Outcome)
      requires forall i :: 0 <= i < |checks| ==> checks[i].quota > 0
      ensures worst == Scan(checks, model, from)
    {
      worst := from;
      for i := 0 to |checks|
        invariant worst == Scan(checks[..i], model, from)
      {
        assert checks[..i + 1][..i] == checks[..i];
        var c := checks[i];
        if c.level < c.need && (c.limit == LimitModel) == model {
          worst := Consider(worst, c.limit, CeilDiv(c.need - c.level, c.quota));
        }
      }
      assert checks[..|checks|] == checks;
    }

    method ChargeLoop(checks: seq<Check>, now: int)
      modifies this`buckets
      ensures buckets == ChargeAll(old(buckets), checks, now)
    {
      for i := 0 to |checks|
        invariant buckets == ChargeAll(old(buckets), checks[..i], now)
      {
        assert checks[..i + 1][..i] == checks[..i];
        var c := checks[i];
        var at := now;
        if c.key in buckets && buckets[c.key].at > at { at := buckets[c.key].at; }
        buckets := buckets[c.key := Bucket(c.level - c.need, at)];
      }
      assert checks[..|checks|] == checks;
    }

    method AllowCall(now: int, r: Request) returns (out: Outcome)
      modifies this
      ensures (St(), out) == Allow(p, old(St()), now, r)
    {
      var checks := Checks(p, buckets, now, r);
      var worst := ScanLoop(checks, false, Outcome(false, NoLimit, 0));
      var live := map[];
      if r.maxConcurrent > 0 {
        if r.tenant in leases {
          live := Purge(leases[r.tenant], now);
          leases := leases[r.tenant := live];
        }
        if |live| >= r.maxConcurrent { worst := Consider(worst, LimitConcurrency, CONCURRENCY_RETRY_MS); }
      }
      worst := ScanLoop(checks, true, worst);
      if worst.limit != NoLimit { return worst; }
      ChargeLoop(checks, now);
      if r.maxConcurrent > 0 { leases := leases[r.tenant := live[r.leaseId := now + p.leaseTtlMs]]; }
      return Outcome(true, NoLimit, 0);
    }

    method ReleaseCall(tenant: string, leaseId: string) returns (held: bool)
      modifies this
      ensures (St(), held) == Release(old(St()), tenant, leaseId)
    {
      held := tenant in leases && leaseId in leases[tenant];
      if held { leases := leases[tenant := leases[tenant] - {leaseId}]; }
    }

    method RenewCall(now: int, tenant: string, leaseId: string) returns (extended: bool)
      modifies this
      ensures (St(), extended) == Renew(p, old(St()), now, tenant, leaseId)
    {
      if tenant !in leases || leaseId !in leases[tenant] || leases[tenant][leaseId] <= now { return false; }
      leases := leases[tenant := leases[tenant][leaseId := now + p.leaseTtlMs]];
      return true;
    }
  }
}
