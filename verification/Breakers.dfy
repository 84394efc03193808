/** The set of breakers of a gateway and its ejection cap (internal/resilience/breakers.go). */
module Breakers {
  import opened Prelude
  import opened Window
  import opened Breaker
  import opened BreakerProtocol
  import Scheduler

  /** One worker of the registry view. */
  datatype Member = Member(key: Key, model: string, eligible: bool)

  type Fleet = map<string, State>

  function MaxOpen(fraction: real, eligible: int): int {
    if fraction <= 0.0 || eligible <= 0 then 0
    else if fraction >= 1.0 then eligible
    else (fraction * eligible as real + 0.000000001).Floor
  }

  predicate OfModel(b: State, model: string) { b.model == model && b.eligible }

  predicate Ejected(b: State, model: string) { OfModel(b, model) && b.phase != Closed }

  function EligibleSet(f: Fleet, model: string): set<string> { set id | id in f && OfModel(f[id], model) }

  function OpenSet(f: Fleet, model: string): set<string> { set id | id in f && Ejected(f[id], model) }

  function Cap(p: Params, f: Fleet, model: string): int { MaxOpen(p.maxOpenFraction, |EligibleSet(f, model)|) }

  /** The ejection cap: open and half-open breakers of a model's eligible workers are within the limit. */
  ghost predicate CapKept(p: Params, f: Fleet) { forall m :: |OpenSet(f, m)| <= Cap(p, f, m) }

  // ------------------------------------------------------------------ who is relaxed

  /** Ejected earlier, or at the same time with the smaller ID. */
  predicate Older(f: Fleet, a: string, b: string)
    requires a in f && b in f
  {
    f[a].ejectedAt < f[b].ejectedAt || (f[a].ejectedAt == f[b].ejectedAt && Scheduler.Less(a, b))
  }

  lemma OlderIsStrict(f: Fleet, a: string, b: string)
    requires a in f && b in f
    ensures a != b ==> Older(f, a, b) || Older(f, b, a)
    ensures !(Older(f, a, b) && Older(f, b, a)) && !Older(f, a, a)
  {
    Scheduler.LessTotal(a, b);
  }

  lemma OlderTransitive(f: Fleet, a: string, b: string, c: string)
    requires a in f && b in f && c in f && Older(f, a, b) && Older(f, b, c)
    ensures Older(f, a, c)
  {
    if f[a].ejectedAt == f[b].ejectedAt == f[c].ejectedAt { Scheduler.LessTransitive(a, b, c); }
  }

  /** The ejected workers of a model that were ejected before this one. */
  function Elders(f: Fleet, model: string, id: string): set<string>
    requires id in f
  {
    set x | x in OpenSet(f, model) && Older(f, x, id)
  }

  lemma EldersGrow(f: Fleet, model: string, a: string, b: string)
    requires a in f && b in f && a in OpenSet(f, model) && Older(f, a, b)
    ensures |Elders(f, model, a)| < |Elders(f, model, b)|
  {
    forall x | x in Elders(f, model, a) ensures x in Elders(f, model, b) { OlderTransitive(f, x, a, b); }
    OlderIsStrict(f, a, a);
    SubsetSmaller(Elders(f, model, a) + {a}, Elders(f, model, b));
  }

  lemma SubsetSmaller<T>(a: set<T>, b: set<T>)
    requires a <= b
    ensures |a| <= |b|
  {
    assert b == a + (b - a);
  }

  /** Keep the `most` longest-standing ejections of a model and close the rest. */
  function Relaxed(f: Fleet, model: string, most: int, now: int): Fleet {
    map id | id in f :: if Ejected(f[id], model) && |Elders(f, model, id)| >= most then Shut(f[id], now) else f[id]
  }

  /** The ejected workers that stay ejected. */
  function Spared(f: Fleet, model: string, most: int): set<string> {
    set id | id in OpenSet(f, model) && |Elders(f, model, id)| < most
  }

  /** Closing the latest ejection that is still open is one step of the relaxation. */
  lemma LatestGoesNext(f: Fleet, model: string, most: nat, v: string)
    requires most > 0 && |Spared(f, model, most)| == most && v in Spared(f, model, most)
    requires forall x :: x in Spared(f, model, most) && x != v ==> Older(f, x, v)
    ensures |Elders(f, model, v)| == most - 1 && Spared(f, model, most - 1) == Spared(f, model, most) - {v}
    ensures |Spared(f, model, most - 1)| == most - 1
  {
    var s := Spared(f, model, most);
    SubsetSmaller(s - {v}, Elders(f, model, v));
    forall x | x in s - {v} ensures |Elders(f, model, x)| < most - 1 { EldersGrow(f, model, x, v); }
  }

  lemma AllSpared(f: Fleet, model: string)
    ensures Spared(f, model, |OpenSet(f, model)|) == OpenSet(f, model)
  {
    forall id | id in OpenSet(f, model) ensures |Elders(f, model, id)| < |OpenSet(f, model)| {
      OlderIsStrict(f, id, id);
      SubsetSmaller(Elders(f, model, id) + {id}, OpenSet(f, model));
    }
  }

  /** The later ejection of the latest so far and one more. */
  method Later(f: Fleet, ghost seen: set<string>, open: nat, victim: string, id: string) returns (latest: string)
    requires id in f && id !in seen && seen <= f.Keys && open == |seen|
    requires open > 0 ==> victim in seen && forall x :: x in seen && x != victim ==> Older(f, x, victim)
    ensures latest in seen + {id} && forall x :: x in seen + {id} && x != latest ==> Older(f, x, latest)
  {
    if open == 0 { return id; }
    if f[id].ejectedAt > f[victim].ejectedAt || (f[id].ejectedAt == f[victim].ejectedAt && Scheduler.Less(victim, id)) {
      forall x | x in seen ensures Older(f, x, id) { if x != victim { OlderTransitive(f, x, victim, id); } }
      return id;
    }
    OlderIsStrict(f, id, victim);
    return victim;
  }

  /** The ejected worker of a model that was ejected last, found in one pass over the set in any order. */
  method FindVictim(f: Fleet, model: string) returns (open: nat, victim: string)
    ensures open == |OpenSet(f, model)|
    ensures open > 0 ==> victim in OpenSet(f, model) && forall x :: x in OpenSet(f, model) && x != victim
                                                                    ==> Older(f, x, victim)
  {
    var todo: set<string> := f.Keys;
    ghost var seen: set<string> := {};
    open, victim := 0, "";
    while todo != {}
      invariant todo <= f.Keys && seen == OpenSet(f, model) - todo && open == |seen|
      invariant open > 0 ==> victim in seen && forall x :: x in seen && x != victim ==> Older(f, x, victim)
      decreases |todo|
    {
      var id :| id in todo;
      todo := todo - {id};
      if Ejected(f[id], model) {
        victim := Later(f, seen, open, victim, id);
        seen, open := seen + {id}, open + 1;
      }
    }
    assert seen == OpenSet(f, model);
  }

  // ------------------------------------------------------------------ enforcing the cap

  lemma RelaxedNothing(f: Fleet, model: string, most: int, now: int)
    requires most >= |OpenSet(f, model)|
    ensures Relaxed(f, model, most, now) == f
  {
    AllSpared(f, model);
    forall id | id in f && Ejected(f[id], model) ensures |Elders(f, model, id)| < most {
      assert id in Spared(f, model, |OpenSet(f, model)|);
    }
  }

  /** Closing the latest ejection of a model that is above its limit leads to the same relaxation. */
  lemma LatestFirst(f: Fleet, model: string, limit: nat, v: string, now: int)
    requires |OpenSet(f, model)| > limit && v in OpenSet(f, model)
    requires forall x :: x in OpenSet(f, model) && x != v ==> Older(f, x, v)
    ensures Relaxed(f[v := Shut(f[v], now)], model, limit, now) == Relaxed(f, model, limit, now)
    ensures OpenSet(f[v := Shut(f[v], now)], model) == OpenSet(f, model) - {v}
  {
    LatestHasElders(f, model, limit, v);
    RelaxedAfter(f, model, limit, v, now);
    OpenWithout(f, model, v, now);
  }

  lemma LatestHasElders(f: Fleet, model: string, limit: nat, v: string)
    requires |OpenSet(f, model)| > limit && v in OpenSet(f, model)
    requires forall x :: x in OpenSet(f, model) && x != v ==> Older(f, x, v)
    ensures |Elders(f, model, v)| >= limit
  {
    SubsetSmaller(OpenSet(f, model) - {v}, Elders(f, model, v));
  }

  lemma OpenWithout(f: Fleet, model: string, v: string, now: int)
    requires v in OpenSet(f, model)
    ensures OpenSet(f[v := Shut(f[v], now)], model) == OpenSet(f, model) - {v}
  {
  }

  lemma RelaxedAfter(f: Fleet, model: string, limit: nat, v: string, now: int)
    requires v in OpenSet(f, model) && |Elders(f, model, v)| >= limit
    requires forall x :: x in OpenSet(f, model) && x != v ==> Older(f, x, v)
    ensures Relaxed(f[v := Shut(f[v], now)], model, limit, now) == Relaxed(f, model, limit, now)
  {
    var a, b := Relaxed(f[v := Shut(f[v], now)], model, limit, now), Relaxed(f, model, limit, now);
    forall id | id in f ensures a[id] == b[id] { RelaxedSame(f, model, limit, v, id, now); }
  }

  lemma RelaxedSame(f: Fleet, model: string, limit: nat, v: string, id: string, now: int)
    requires id in f && v in OpenSet(f, model) && |Elders(f, model, v)| >= limit
    requires id in OpenSet(f, model) && id != v ==> Older(f, id, v)
    ensures Relaxed(f[v := Shut(f[v], now)], model, limit, now)[id] == Relaxed(f, model, limit, now)[id]
  {
    if id != v && Ejected(f[id], model) { EldersStay(f, model, v, id, now); }
  }

  /** Closing a later ejection does not change who was ejected before. */
  lemma EldersStay(f: Fleet, model: string, v: string, id: string, now: int)
    requires v in f && id in f && id != v && Older(f, id, v)
    ensures Elders(f[v := Shut(f[v], now)], model, id) == Elders(f, model, id)
  {
    var g := f[v := Shut(f[v], now)];
    OlderIsStrict(f, id, v);
    forall x | x in f && x != v ensures Older(g, x, id) == Older(f, x, id)
        && Ejected(g[x], model) == Ejected(f[x], model) {}
  }

  /** The inner loop: close the latest ejection until the model is within its limit. */
  method RelaxModel(f: Fleet, model: string, limit: nat, now: int) returns (g: Fleet)
    ensures g == Relaxed(f, model, limit, now)
  {
    g := f;
    while true
      invariant Relaxed(g, model, limit, now) == Relaxed(f, model, limit, now)
      decreases |OpenSet(g, model)|
    {
      var open, victim := FindVictim(g, model);
      if open <= limit { break; }
      LatestFirst(g, model, limit, victim, now);
      g := g[victim := Shut(g[victim], now)];
    }
    RelaxedNothing(g, model, limit, now);
  }

  lemma {:induction false} LatestExists(f: Fleet, s: set<string>) returns (v: string)
    requires s != {} && s <= f.Keys
    ensures v in s && forall x :: x in s && x != v ==> Older(f, x, v)
    decreases |s|
  {
    v :| v in s;
    if s != {v} {
      var w := LatestExists(f, s - {v});
      OlderIsStrict(f, v, w);
      if Older(f, v, w) { v := w; } else {
        forall x | x in s && x != v ensures Older(f, x, v) { if x != w { OlderTransitive(f, x, w, v); } }
      }
    }
  }

  /** As many ejections are kept as the limit allows, no fewer. */
  lemma {:induction false} SparedSize(f: Fleet, model: string, most: nat)
    ensures |Spared(f, model, most)| == Min(|OpenSet(f, model)|, most)
    decreases |OpenSet(f, model)| - most
  {
    var n := |OpenSet(f, model)|;
    if most >= n {
      AllSpared(f, model);
      assert Spared(f, model, most) == OpenSet(f, model);
    } else {
      SparedSize(f, model, most + 1);
      assert Spared(f, model, most + 1) <= f.Keys;
      var v := LatestExists(f, Spared(f, model, most + 1));
      LatestGoesNext(f, model, most + 1, v);
    }
  }

  /** Every ejection that is kept is older than every one that is closed. */
  lemma SparedAreOlder(f: Fleet, model: string, most: int, s: string, v: string)
    requires s in Spared(f, model, most) && v in OpenSet(f, model) - Spared(f, model, most)
    ensures Older(f, s, v)
  {
    OlderIsStrict(f, s, v);
    if Older(f, v, s) { EldersGrow(f, model, v, s); }
  }

  /** The whole enforcement: each model keeps its longest-standing ejections up to its cap. */
  function Enforced(p: Params, f: Fleet, models: set<string>, now: int): Fleet {
    map id | id in f ::
      if f[id].model in models && Ejected(f[id], f[id].model) && |Elders(f, f[id].model, id)| >= Cap(p, f, f[id].model)
          then Shut(f[id], now) else f[id]
  }

  /** Other models' enforcement does not touch a model. */
  lemma EnforcedOther(p: Params, f: Fleet, models: set<string>, now: int, m: string)
    requires m !in models
    ensures var g := Enforced(p, f, models, now);
            && OpenSet(g, m) == OpenSet(f, m) && EligibleSet(g, m) == EligibleSet(f, m)
            && forall id :: id in f && f[id].model == m ==> g[id] == f[id] && Elders(g, m, id) == Elders(f, m, id)
  {
    var g := Enforced(p, f, models, now);
    forall id | id in f ensures (Ejected(g[id], m) <==> Ejected(f[id], m))
        && (OfModel(g[id], m) <==> OfModel(f[id], m)) {}
  }

  lemma EnforcedMore(p: Params, f: Fleet, models: set<string>, now: int, m: string)
    requires m !in models
    ensures Relaxed(Enforced(p, f, models, now), m, Cap(p, f, m), now) == Enforced(p, f, models + {m}, now)
  {
    var g := Enforced(p, f, models, now);
    EnforcedOther(p, f, models, now, m);
    forall id | id in f ensures Relaxed(g, m, Cap(p, f, m), now)[id] == Enforced(p, f, models + {m}, now)[id] {}
  }

  lemma EnforcedSets(p: Params, f: Fleet, models: set<string>, now: int, m: string)
    requires m in models || OpenSet(f, m) == {}
    ensures var g := Enforced(p, f, models, now);
            && OpenSet(g, m) == Spared(f, m, Cap(p, f, m)) && EligibleSet(g, m) == EligibleSet(f, m)
            && forall id :: id in f && f[id].model == m && id !in OpenSet(f, m) - OpenSet(g, m) ==> g[id] == f[id]
  {
    var g, c := Enforced(p, f, models, now), Cap(p, f, m);
    forall id | id in f
      ensures (id in OpenSet(g, m) <==> id in Spared(f, m, c)) && (OfModel(g[id], m) <==> OfModel(f[id], m))
    {
      if f[id].model == m { assert id in OpenSet(f, m) <==> Ejected(f[id], m); }
    }
  }

  /** Enforcement over every model closes exactly the excess of each, the most recent ejections first, and nothing
      else. */
  lemma EnforcementIsExact(p: Params, f: Fleet, models: set<string>, now: int, m: string)
    requires m in models || OpenSet(f, m) == {}
    ensures var g := Enforced(p, f, models, now);
            && EligibleSet(g, m) == EligibleSet(f, m) && OpenSet(g, m) <= OpenSet(f, m)
            && |OpenSet(g, m)| == Min(|OpenSet(f, m)|, Max(Cap(p, f, m), 0))
            && (forall s, v :: s in OpenSet(g, m) && v in OpenSet(f, m) - OpenSet(g, m) ==> Older(f, s, v))
            && (forall id :: id in f && f[id].model == m && id !in OpenSet(f, m) - OpenSet(g, m) ==> g[id] == f[id])
  {
    var g, c := Enforced(p, f, models, now), Cap(p, f, m);
    EnforcedSets(p, f, models, now, m);
    SparedSize(f, m, Max(c, 0));
    assert Spared(f, m, c) == Spared(f, m, Max(c, 0));
    forall s, v | s in OpenSet(g, m) && v in OpenSet(f, m) - OpenSet(g, m) ensures Older(f, s, v) {
      SparedAreOlder(f, m, c, s, v);
    }
  }

  // ------------------------------------------------------------------ operations

  /** What is true of every fleet: breakers are filed under their worker, keep their own invariant, and the cap holds.
      */
  ghost predicate Filed(p: Params, f: Fleet) { forall id :: id in f ==> f[id].key.id == id && Inv(p, f[id]) }

  /** Whether a trip of this breaker stays within the cap; an ineligible worker's trip takes no room. */
  predicate Room(p: Params, f: Fleet, b: State) { !b.eligible || |OpenSet(f, b.model)| < Cap(p, f, b.model) }

  function WithRoom(op: Op, room: bool): Op {
    match op
    case Judge(now, who, t, v, _, rnd) => Judge(now, who, t, v, room, rnd)
    case JudgeLate(now, who, t, v, _, rnd) => JudgeLate(now, who, t, v, room, rnd)
    case Abort(now, who, t, okAt, _, rnd) => Abort(now, who, t, okAt, room, rnd)
    case _ => op
  }

  predicate Knows(f: Fleet, k: Key) { k.id in f && f[k.id].key == k }

  /** An operation on one worker's breaker; a worker without one has nothing to change, and only the enforcement
      relaxes. */
  function OnBreaker(p: Params, f: Fleet, k: Key, op: Op): Fleet
    requires Sane(p) && (k.id in f ==> Shaped(p, f[k.id]))
  {
    if Knows(f, k) && !op.Relax? then f[k.id := Step(p, f[k.id], WithRoom(op, Room(p, f, f[k.id])))] else f
  }

  function Joined(p: Params, f: Fleet, members: seq<Member>): Fleet
    requires Sane(p)
  {
    if members == [] then f
    else
      var g, m := Joined(p, f, members[..|members| - 1]), members[|members| - 1];
      var b := if Knows(g, m.key) then g[m.key.id] else New(m.key, p);
      g[m.key.id := b.(eligible := m.eligible, model := m.model)]
  }

  function Ids(members: seq<Member>): set<string> {
    if members == [] then {} else Ids(members[..|members| - 1]) + {members[|members| - 1].key.id}
  }

  function Models(f: Fleet): set<string> { set id | id in f && f[id].eligible :: f[id].model }

  function Synced(p: Params, f: Fleet, members: seq<Member>, now: int): Fleet
    requires Sane(p)
  {
    var g := Joined(p, f, members);
    var kept: Fleet := map id | id in g && id in Ids(members) :: g[id];
    Enforced(p, kept, Models(kept), now)
  }

  function Pruned(p: Params, f: Fleet, keep: seq<Key>, now: int): Fleet {
    var kept: Fleet := map id | id in f && f[id].key in keep :: f[id];
    Enforced(p, kept, Models(kept), now)
  }

  // ------------------------------------------------------------------ the cap holds after every operation

  lemma MaxOpenBounds(fraction: real, n: nat)
    ensures 0 <= MaxOpen(fraction, n) <= n
    ensures n > 0 && fraction <= 0.5 ==> MaxOpen(fraction, n) < n
  {
    if 0.0 < fraction < 1.0 && n > 0 {
      var x := fraction * n as real;
      assert 0.0 <= x <= n as real;
      if fraction <= 0.5 { assert x <= 0.5 * n as real; }
    }
  }

  /** Whatever the fleet was, enforcement leaves every model within its cap. */
  lemma EnforcedKeepsCap(p: Params, f: Fleet, now: int)
    requires Sane(p) && Filed(p, f)
    ensures CapKept(p, Enforced(p, f, Models(f), now)) && Filed(p, Enforced(p, f, Models(f), now))
  {
    var g := Enforced(p, f, Models(f), now);
    forall m ensures |OpenSet(g, m)| <= Cap(p, g, m) {
      forall id | id in OpenSet(f, m) ensures m in Models(f) { assert f[id].model == m; }
      EnforcementIsExact(p, f, Models(f), now, m);
      MaxOpenBounds(p.maxOpenFraction, |EligibleSet(f, m)|);
    }
    forall id | id in g ensures g[id].key.id == id && Inv(p, g[id]) { assert Inv(p, f[id]); }
  }

  /** One breaker changes within its worker, model and eligibility; it may leave Closed only where there is room. */
  lemma UpdateKeepsCap(p: Params, f: Fleet, id: string, b: State)
    requires CapKept(p, f) && id in f && b.model == f[id].model && b.eligible == f[id].eligible
    requires f[id].phase == Closed && b.phase != Closed ==> Room(p, f, f[id])
    ensures CapKept(p, f[id := b])
  {
    var g := f[id := b];
    forall m ensures |OpenSet(g, m)| <= Cap(p, g, m) {
      assert EligibleSet(g, m) == EligibleSet(f, m);
      assert |OpenSet(f, m)| <= Cap(p, f, m);
      if Ejected(b, m) && f[id].phase == Closed {
        assert OpenSet(g, m) == OpenSet(f, m) + {id};
      } else {
        assert OpenSet(g, m) <= OpenSet(f, m);
        SubsetSmaller(OpenSet(g, m), OpenSet(f, m));
      }
    }
  }

  predicate SameWorker(b: State, c: State) { c.key == b.key && c.model == b.model && c.eligible == b.eligible }

  lemma CountStaysPut(p: Params, b: State, now: int, v: Verdict, room: bool, rnd: Draw)
    requires Sane(p) && Shaped(p, b)
    ensures var c := CountClosed(p, b, now, v, room, rnd);
        SameWorker(b, c) && (b.phase == Closed && c.phase != Closed ==> room)
  {
  }

  lemma JudgeStaysPut(p: Params, b: State, now: int, t: Ticket, v: Verdict, room: bool, rnd: Draw)
    requires Sane(p) && Shaped(p, b)
    ensures var c := Recorded(p, b, now, t, v, room, rnd);
        SameWorker(b, c) && (b.phase == Closed && c.phase != Closed ==> room)
  {
    var c := Advance(p, b, now);
    AdvanceStaysPut(p, b, now);
    if t.probe {
      if c.phase == HalfOpen { ProbedStaysPut(p, c, now, v, t.id, rnd); }
    } else {
      CountStaysPut(p, c, now, v, room, rnd);
    }
  }

  lemma AdvanceStaysPut(p: Params, b: State, now: int)
    ensures SameWorker(b, Advance(p, b, now)) && (b.phase == Closed <==> Advance(p, b, now).phase == Closed)
  {
  }

  lemma ProbedStaysPut(p: Params, c: State, now: int, v: Verdict, id: nat, rnd: Draw)
    requires Sane(p)
    ensures SameWorker(c, Probed(p, c, now, v, id, rnd))
  {
  }

  lemma LateStaysPut(p: Params, b: State, now: int, t: Ticket, v: Verdict, room: bool, rnd: Draw)
    requires Sane(p) && Shaped(p, b)
    ensures var c := RecordedLate(p, b, now, t, v, room, rnd);
        SameWorker(b, c) && (b.phase == Closed && c.phase != Closed ==> room)
  {
    AdvanceStaysPut(p, b, now);
    CountStaysPut(p, Advance(p, b, now), now, v, room, rnd);
  }

  lemma AbortStaysPut(p: Params, b: State, now: int, t: Ticket, okAt: int, room: bool, rnd: Draw)
    requires Sane(p) && Shaped(p, b)
    ensures var c := Aborted(p, b, now, t, okAt, room, rnd);
        SameWorker(b, c) && (b.phase == Closed && c.phase != Closed ==> room)
  {
    LateStaysPut(p, b, now, t, Fault, room, rnd);
    var c := Advance(p, b, now);
    CountStaysPut(p, c.(win := Add(c.win, okAt, now, true, -1)), now, Fault, room, rnd);
  }

  /** A step leaves the breaker with its worker, and leaves Closed only with room. */
  lemma StepStaysPut(p: Params, b: State, op: Op)
    requires Sane(p) && Shaped(p, b)
    ensures var c := Step(p, b, op);
            SameWorker(b, c) && (b.phase == Closed && c.phase != Closed ==> (op.Judge? || op.JudgeLate? || op.Abort?)
                                                                            && op.room)
  {
    if op.Judge? { JudgeStaysPut(p, b, op.now, op.t, op.v, op.room, op.rnd); }
    else if op.JudgeLate? { LateStaysPut(p, b, op.now, op.t, op.v, op.room, op.rnd); }
    else if op.Abort? { AbortStaysPut(p, b, op.now, op.t, op.okAt, op.room, op.rnd); }
  }

  lemma OnBreakerKeepsCap(p: Params, f: Fleet, k: Key, op: Op)
    requires Sane(p) && Filed(p, f) && CapKept(p, f)
    ensures Filed(p, OnBreaker(p, f, k, op)) && CapKept(p, OnBreaker(p, f, k, op))
  {
    if Knows(f, k) {
      var op' := WithRoom(op, Room(p, f, f[k.id]));
      StepStaysPut(p, f[k.id], op');
      StepInv(p, f[k.id], op');
      UpdateKeepsCap(p, f, k.id, Step(p, f[k.id], op'));
    }
  }

  lemma {:induction false} JoinedFiled(p: Params, f: Fleet, members: seq<Member>)
    requires Sane(p) && Filed(p, f)
    ensures Filed(p, Joined(p, f, members))
  {
    if members != [] {
      JoinedFiled(p, f, members[..|members| - 1]);
      NewInv(p, members[|members| - 1].key);
    }
  }

  // ------------------------------------------------------------------ runs

  datatype FleetOp =
    | Sync(now: int, members: seq<Member>)
    | Prune(now: int, keep: seq<Key>)
    | On(key: Key, op: Op)

  function FleetStep(p: Params, f: Fleet, op: FleetOp): Fleet
    requires Sane(p) && forall id :: id in f ==> Shaped(p, f[id])
  {
    match op
    case Sync(now, members) => Synced(p, f, members, now)
    case Prune(now, keep) => Pruned(p, f, keep, now)
    case On(k, o) => OnBreaker(p, f, k, o)
  }

  lemma FleetStepKeepsCap(p: Params, f: Fleet, op: FleetOp)
    requires Sane(p) && Filed(p, f) && CapKept(p, f)
    ensures Filed(p, FleetStep(p, f, op)) && CapKept(p, FleetStep(p, f, op))
  {
    match op
    case Sync(now, members) =>
      JoinedFiled(p, f, members);
      var g := Joined(p, f, members);
      EnforcedKeepsCap(p, map id | id in g && id in Ids(members) :: g[id], now);
    case Prune(now, keep) => EnforcedKeepsCap(p, map id | id in f && f[id].key in keep :: f[id], now);
    case On(k, o) => OnBreakerKeepsCap(p, f, k, o);
  }

  function FleetAfter(p: Params, ops: seq<FleetOp>): (f: Fleet)
    requires Sane(p)
    ensures Filed(p, f) && CapKept(p, f)
  {
    if ops == [] then EmptyKeepsCap(p); map[]
    else
      var f := FleetAfter(p, ops[..|ops| - 1]);
      FleetStepKeepsCap(p, f, ops[|ops| - 1]);
      FleetStep(p, f, ops[|ops| - 1])
  }

  lemma EmptyKeepsCap(p: Params)
    ensures CapKept(p, map[])
  {
    forall m ensures |OpenSet(map[], m)| <= Cap(p, map[], m) { MaxOpenBounds(p.maxOpenFraction, 0); }
  }

  /** In every run, after every operation, a model's ejected workers are within its cap; with a fraction of at most
      one half every model with an eligible worker has one whose breaker is closed. */
  lemma EjectionCapHolds(p: Params, ops: seq<FleetOp>, model: string)
    requires Sane(p)
    ensures var f := FleetAfter(p, ops);
            && |OpenSet(f, model)| <= MaxOpen(p.maxOpenFraction, |EligibleSet(f, model)|)
            && (p.maxOpenFraction <= 0.5 && EligibleSet(f, model) != {} ==>
                  exists id :: id in f && OfModel(f[id], model) && f[id].phase == Closed)
  {
    var f := FleetAfter(p, ops);
    MaxOpenBounds(p.maxOpenFraction, |EligibleSet(f, model)|);
    if p.maxOpenFraction <= 0.5 && EligibleSet(f, model) != {} {
      assert !(EligibleSet(f, model) <= OpenSet(f, model)) by {
        if EligibleSet(f, model) <= OpenSet(f, model) { SubsetSmaller(EligibleSet(f, model), OpenSet(f, model)); }
      }
      var id :| id in EligibleSet(f, model) && id !in OpenSet(f, model);
    }
  }

  // ------------------------------------------------------------------ the implementation

  /** The per-model counts of eligible workers, without zero entries. */
  ghost predicate Recounted(f: Fleet, tally: map<string, int>) {
    forall m :: (m in tally <==> EligibleSet(f, m) != {}) && (m in tally ==> tally[m] == |EligibleSet(f, m)|)
  }

  function EligibleAmong(f: Fleet, ids: set<string>, m: string): set<string> {
    set id | id in ids && id in f && OfModel(f[id], m)
  }

  ghost predicate TallyFits(f: Fleet, ids: set<string>, tally: map<string, int>, m: string) {
    (m in tally <==> EligibleAmong(f, ids, m) != {}) && (m in tally ==> tally[m] == |EligibleAmong(f, ids, m)|)
  }

  ghost predicate Tallied(f: Fleet, ids: set<string>, tally: map<string, int>) {
    forall m :: TallyFits(f, ids, tally, m)
  }

  function TallyUp(f: Fleet, tally: map<string, int>, id: string): map<string, int>
    requires id in f
  {
    var m := f[id].model;
    if f[id].eligible then tally[m := (if m in tally then tally[m] else 0) + 1] else tally
  }

  lemma TallyModel(f: Fleet, ids: set<string>, tally: map<string, int>, id: string, m: string)
    requires TallyFits(f, ids, tally, m) && id in f && id !in ids
    ensures TallyFits(f, ids + {id}, TallyUp(f, tally, id), m)
  {
    if OfModel(f[id], m) {
      assert EligibleAmong(f, ids + {id}, m) == EligibleAmong(f, ids, m) + {id};
    } else {
      assert EligibleAmong(f, ids + {id}, m) == EligibleAmong(f, ids, m);
    }
  }

  lemma TallyOne(f: Fleet, ids: set<string>, tally: map<string, int>, id: string)
    requires Tallied(f, ids, tally) && id in f && id !in ids
    ensures Tallied(f, ids + {id}, TallyUp(f, tally, id))
  {
    forall m ensures TallyFits(f, ids + {id}, TallyUp(f, tally, id), m) {
      assert TallyFits(f, ids, tally, m);
      TallyModel(f, ids, tally, id, m);
    }
  }

  method RecountEligible(f: Fleet) returns (tally: map<string, int>)
    ensures Recounted(f, tally)
  {
    tally := map[];
    var todo := f.Keys;
    ghost var seen: set<string> := {};
    while todo != {}
      invariant todo + seen == f.Keys && todo !! seen && Tallied(f, seen, tally)
      decreases |todo|
    {
      var id :| id in todo;
      TallyOne(f, seen, tally, id);
      todo, seen := todo - {id}, seen + {id};
      var m := f[id].model;
      if f[id].eligible { tally := tally[m := (if m in tally then tally[m] else 0) + 1]; }
    }
    TallyAll(f, tally);
  }

  lemma TallyAll(f: Fleet, tally: map<string, int>)
    requires Tallied(f, f.Keys, tally)
    ensures Recounted(f, tally)
  {
    forall m ensures (m in tally <==> EligibleSet(f, m) != {}) && (m in tally ==> tally[m] == |EligibleSet(f, m)|) {
      assert TallyFits(f, f.Keys, tally, m);
      assert EligibleAmong(f, f.Keys, m) == EligibleSet(f, m);
    }
  }

  lemma ModelsCounted(f: Fleet, tally: map<string, int>)
    requires Recounted(f, tally)
    ensures tally.Keys == Models(f)
  {
    forall m | m in tally ensures m in Models(f) { var id :| id in EligibleSet(f, m); }
    forall m | m in Models(f) ensures m in tally {
      var id :| id in f && f[id].eligible && f[id].model == m;
      assert id in EligibleSet(f, m);
    }
  }

  lemma EnforcedNone(p: Params, f: Fleet, now: int)
    ensures Enforced(p, f, {}, now) == f
  {
  }

  /** One model of the enforcement. */
  method EnforceModel(p: Params, f: Fleet, seen: set<string>, g: Fleet, m: string, eligible: nat, now: int)
      returns (h: Fleet)
    requires m !in seen && g == Enforced(p, f, seen, now) && eligible == |EligibleSet(f, m)|
    ensures h == Enforced(p, f, seen + {m}, now)
  {
    MaxOpenBounds(p.maxOpenFraction, eligible);
    EnforcedMore(p, f, seen, now, m);
    h := RelaxModel(g, m, MaxOpen(p.maxOpenFraction, eligible), now);
  }

  /** The outer loop of the enforcement, over the models in any order. */
  method EnforceCap(p: Params, f: Fleet, tally: map<string, int>, now: int) returns (g: Fleet)
    requires Recounted(f, tally)
    ensures g == Enforced(p, f, Models(f), now)
  {
    g := f;
    var seen: set<string> := {};
    EnforcedNone(p, f, now);
    ModelsCounted(f, tally);
    while !(tally.Keys <= seen)
      invariant seen <= tally.Keys && g == Enforced(p, f, seen, now)
      decreases tally.Keys - seen
    {
      var m :| m in tally && m !in seen;
      g := EnforceModel(p, f, seen, g, m, tally[m], now);
      seen := seen + {m};
    }
    assert seen == tally.Keys;
  }

  method CountOpen(f: Fleet, model: string) returns (open: nat)
    ensures open == |OpenSet(f, model)|
  {
    open := 0;
    var todo := f.Keys;
    ghost var seen: set<string> := {};
    while todo != {}
      invariant todo <= f.Keys && seen == OpenSet(f, model) - todo && open == |seen|
      decreases |todo|
    {
      var id :| id in todo;
      todo := todo - {id};
      if Ejected(f[id], model) {
        seen := seen + {id};
        open := open + 1;
      }
    }
    assert seen == OpenSet(f, model);
  }

  lemma UpdateRecounted(f: Fleet, id: string, b: State, tally: map<string, int>)
    requires Recounted(f, tally) && id in f && SameWorker(f[id], b)
    ensures Recounted(f[id := b], tally)
  {
    forall m ensures EligibleSet(f[id := b], m) == EligibleSet(f, m) {}
  }

  class BreakerSet {
    const p: Params
    var byId: Fleet
    var eligibleBy: map<string, int>

    ghost predicate Valid()
      reads this
    {
      Sane(p) && Filed(p, byId) && CapKept(p, byId) && Recounted(byId, eligibleBy)
    }

    constructor (settings: Params)
      ensures Valid() && p == Normalize(settings) && byId == map[]
    {
      p := Normalize(settings);
      byId, eligibleBy := map[], map[];
      EmptyKeepsCap(Normalize(settings));
    }

    method SyncMembers(now: int, members: seq<Member>)
      requires Valid()
      modifies this
      ensures Valid() && byId == Synced(p, old(byId), members, now)
    {
      var keep: set<string> := {};
      for i := 0 to |members|
        invariant byId == Joined(p, old(byId), members[..i]) && keep == Ids(members[..i])
      {
        assert members[..i + 1][..i] == members[..i];
        var m := members[i];
        keep := keep + {m.key.id};
        var b := if Knows(byId, m.key) then byId[m.key.id] else New(m.key, p);
        byId := byId[m.key.id := b.(eligible := m.eligible, model := m.model)];
      }
      assert members[..|members|] == members;
      FleetStepKeepsCap(p, old(byId), Sync(now, members));
      byId := map id | id in byId && id in keep :: byId[id];
      Settle(now);
    }

    method PruneKeys(now: int, keep: seq<Key>)
      requires Valid()
      modifies this
      ensures Valid() && byId == Pruned(p, old(byId), keep, now)
    {
      FleetStepKeepsCap(p, byId, Prune(now, keep));
      byId := map id | id in byId && byId[id].key in keep :: byId[id];
      Settle(now);
    }

    /** Recount and enforce the cap. */
    method Settle(now: int)
      modifies this
      ensures byId == Enforced(p, old(byId), Models(old(byId)), now) && Recounted(byId, eligibleBy)
    {
      eligibleBy := RecountEligible(byId);
      byId := EnforceCap(p, byId, eligibleBy, now);
      forall m ensures EligibleSet(byId, m) == EligibleSet(old(byId), m) {
        forall id | id in byId ensures OfModel(byId[id], m) == OfModel(old(byId)[id], m) {}
      }
    }

    method RoomToOpen(b: State) returns (room: bool)
      requires Valid()
      ensures room == Room(p, byId, b)
    {
      if !b.eligible { return true; }
      var open := CountOpen(byId, b.model);
      room := open < MaxOpen(p.maxOpenFraction, if b.model in eligibleBy then eligibleBy[b.model] else 0);
    }

    /** Every operation on one worker's breaker goes through here; only counting an outcome asks for room. */
    method Apply(k: Key, op: Op)
      requires Valid()
      modifies this`byId
      ensures Valid() && byId == OnBreaker(p, old(byId), k, op)
    {
      if !Knows(byId, k) || op.Relax? { return; }
      var b := byId[k.id];
      var room := RoomToOpen(b);
      OnBreakerKeepsCap(p, byId, k, op);
      StepStaysPut(p, b, WithRoom(op, room));
      UpdateRecounted(byId, k.id, Step(p, b, WithRoom(op, room)), eligibleBy);
      byId := byId[k.id := Step(p, b, WithRoom(op, room))];
    }

    method Acquire(now: int, k: Key) returns (t: Option<Ticket>)
      requires Valid()
      modifies this`byId
      ensures Valid() && byId == OnBreaker(p, old(byId), k, Take(now))
      ensures t == if Knows(old(byId), k) then Acquired(p, old(byId)[k.id], now).1
          else Some(Ticket(k, 0, 0, false, true))
    {
      if !Knows(byId, k) { return Some(Ticket(k, 0, 0, false, true)); }
      t := Acquired(p, byId[k.id], now).1;
      Apply(k, Take(now));
    }

    method Release(now: int, t: Ticket)
      requires Valid()
      modifies this`byId
      ensures Valid() && byId == if t.probe then OnBreaker(p, old(byId), t.key, GiveUp(now, t)) else old(byId)
    {
      if t.probe { Apply(t.key, GiveUp(now, t)); }
    }

    method Record(now: int, who: nat, t: Ticket, v: Verdict, rnd: Draw)
      requires Valid()
      modifies this`byId
      ensures Valid() && byId == if t.valid then OnBreaker(p, old(byId), t.key, Judge(now, who, t, v, false, rnd))
          else old(byId)
    {
      if t.valid { Apply(t.key, Judge(now, who, t, v, false, rnd)); }
    }

    method RecordLate(now: int, who: nat, t: Ticket, v: Verdict, rnd: Draw)
      requires Valid()
      modifies this`byId
      ensures Valid() && byId == if t.valid then OnBreaker(p, old(byId), t.key, JudgeLate(now, who, t, v, false, rnd))
          else old(byId)
    {
      if t.valid { Apply(t.key, JudgeLate(now, who, t, v, false, rnd)); }
    }

    method RecordAbort(now: int, who: nat, t: Ticket, okAt: int, rnd: Draw)
      requires Valid()
      modifies this`byId
      ensures Valid() && byId == if t.valid then OnBreaker(p, old(byId), t.key, Abort(now, who, t, okAt, false, rnd))
          else old(byId)
    {
      if t.valid { Apply(t.key, Abort(now, who, t, okAt, false, rnd)); }
    }

    method Admissible(now: int, k: Key) returns (ok: bool)
      requires Valid()
      modifies this`byId
      ensures Valid() && byId == OnBreaker(p, old(byId), k, Touch(now))
      ensures ok <==> !Knows(old(byId), k) || byId[k.id].phase == Closed || ProbeFree(p, byId[k.id])
    {
      Apply(k, Touch(now));
      ok := !Knows(byId, k) || byId[k.id].phase == Closed || ProbeFree(p, byId[k.id]);
    }
  }
}
