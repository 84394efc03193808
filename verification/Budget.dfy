/** The retry budget (internal/resilience/budget.go): one sliding window per model, and the plain history it stands
    for. */
module Budget {
  import opened Prelude
  import opened Window
  import opened History

  const OTHER_MODEL := "other"

  datatype Params = Params(ratio: real, least: int, window: int, maxModels: int)

  /** One counted event of a model's window; a refunded retry is no longer live. */
  datatype Entry = Entry(key: string, at: int, live: bool)

  /** The windows, the first attempts counted so far, and the retries granted so far. A reservation is the position of
      its grant. */
  datatype State = State(rings: map<string, Ring>, firsts: seq<Entry>, grants: seq<Entry>)

  const Empty: State := State(map[], [], [])

  function Limit(p: Params, firsts: int): int { Max(p.least, (p.ratio * firsts as real + 0.000000001).Floor) }

  /** The window a model's events are counted in: its own, or the shared one beyond the cap. */
  function KeyFor(p: Params, rings: map<string, Ring>, model: string): string {
    if model in rings then model
    else if p.maxModels > 0 && |rings| >= p.maxModels && model != OTHER_MODEL then OTHER_MODEL
    else model
  }

  function RingOf(p: Params, s: State, key: string): Ring {
    if key in s.rings then s.rings[key] else Fresh(Places(p.window))
  }

  function NoteFirst(p: Params, s: State, now: int, model: string): State {
    var key := KeyFor(p, s.rings, model);
    s.(rings := s.rings[key := Add(RingOf(p, s, key), now, now, true, 1)], firsts := s.firsts + [Entry(key, now, true)])
  }

  function Reserve(p: Params, s: State, now: int, model: string): (State, Option<nat>) {
    var key := KeyFor(p, s.rings, model);
    var w := RingOf(p, s, key);
    var (firsts, retries) := Sum(w, now);
    if retries >= Limit(p, firsts) then (s.(rings := s.rings[key := w]), None)
    else (s.(rings := s.rings[key := Add(w, now, now, false, 1)], grants := s.grants + [Entry(key, now, true)]),
        Some(|s.grants|))
  }

  function Refund(s: State, now: int, r: Option<nat>): State
    requires r.Some? ==> r.value < |s.grants|
  {
    if r.None? || !s.grants[r.value].live then s
    else
      var g := s.grants[r.value];
      State(if g.key in s.rings then s.rings[g.key := Add(s.rings[g.key], g.at, now, false, -1)] else s.rings,
            s.firsts, s.grants[r.value := g.(live := false)])
  }

  // ------------------------------------------------------------------ the plain counts

  /** The live events of a key. */
  function Live(key: string): Entry -> Option<int> {
    (e: Entry) => if e.live && e.key == key then Some(BucketOf(e.at)) else None
  }

  // ------------------------------------------------------------------ the windows follow the history

  ghost predicate Recorded(rings: map<string, Ring>, es: seq<Entry>, cur: int) {
    forall i :: 0 <= i < |es| ==> es[i].key in rings && BucketOf(es[i].at) <= cur
  }

  /** Every window tracks the live events of its key, and no event is without a window. */
  ghost predicate Follows(p: Params, s: State, cur: int) {
    && Recorded(s.rings, s.firsts, cur) && Recorded(s.rings, s.grants, cur)
    && forall key :: key in s.rings ==>
         |s.rings[key]| == Places(p.window)
             && Tracks(s.rings[key], cur, Counter(s.firsts, Live(key)), Counter(s.grants, Live(key)))
  }

  lemma Unrecorded(rings: map<string, Ring>, es: seq<Entry>, cur: int, key: string, bucket: int)
    requires Recorded(rings, es, cur) && (key !in rings || bucket > cur)
    ensures CountAt(es, Live(key), bucket) == 0
  {
    CountNone(es, Live(key), bucket);
  }

  /** The window an operation works on tracks its key, new or not. */
  lemma RingTracks(p: Params, s: State, cur: int, key: string)
    requires Follows(p, s, cur) && 0 <= cur
    ensures |RingOf(p, s, key)| == Places(p.window)
        && Tracks(RingOf(p, s, key), cur, Counter(s.firsts, Live(key)), Counter(s.grants, Live(key)))
  {
    if key !in s.rings {
      forall x ensures Counter(s.firsts, Live(key))(x) == 0 && Counter(s.grants, Live(key))(x) == 0 {
        Unrecorded(s.rings, s.firsts, cur, key, x);
        Unrecorded(s.rings, s.grants, cur, key, x);
      }
      FreshTracks(Places(p.window), cur, Counter(s.firsts, Live(key)), Counter(s.grants, Live(key)));
    }
  }

  lemma Later(p: Params, s: State, cur: int, later: int)
    requires Follows(p, s, cur) && cur <= later
    ensures Follows(p, s, later)
  {
    forall key | key in s.rings
      ensures Tracks(s.rings[key], later, Counter(s.firsts, Live(key)), Counter(s.grants, Live(key)))
    {
      TracksLater(s.rings[key], cur, later, Counter(s.firsts, Live(key)), Counter(s.grants, Live(key)));
    }
  }

  lemma AppendBumps(es: seq<Entry>, key: string, at: int)
    ensures Bumped(Counter(es, Live(key)), Counter(es + [Entry(key, at, true)], Live(key)), BucketOf(at), 1)
    ensures forall other, x :: other != key ==> CountAt(es + [Entry(key, at, true)], Live(other), x)
                                                == CountAt(es, Live(other), x)
  {
    forall k, x ensures CountAt(es + [Entry(key, at, true)], Live(k), x) == CountAt(es, Live(k), x) + if k == key
        && x == BucketOf(at) then 1 else 0 {
      CountAppend(es, Entry(key, at, true), Live(k));
    }
  }

  lemma NoteFirstFollows(p: Params, s: State, now: int, model: string)
    requires Follows(p, s, BucketOf(now)) && 0 <= now
    ensures Follows(p, NoteFirst(p, s, now, model), BucketOf(now))
  {
    var key, cur, t := KeyFor(p, s.rings, model), BucketOf(now), NoteFirst(p, s, now, model);
    RingTracks(p, s, cur, key);
    AppendBumps(s.firsts, key, now);
    AddTracks(RingOf(p, s, key), now, now, true, 1, Counter(s.firsts, Live(key)), Counter(s.grants, Live(key)),
        Counter(t.firsts, Live(key)), Counter(t.grants, Live(key)));
    forall k | k in t.rings
      ensures |t.rings[k]| == Places(p.window)
          && Tracks(t.rings[k], cur, Counter(t.firsts, Live(k)), Counter(t.grants, Live(k)))
    {
      if k != key {
        SameTracks(s.rings[k], cur, Counter(s.firsts, Live(k)), Counter(s.grants, Live(k)), Counter(t.firsts, Live(k)),
            Counter(t.grants, Live(k)));
      }
    }
  }

  lemma GrantFollows(p: Params, s: State, now: int, key: string)
    requires Follows(p, s, BucketOf(now)) && 0 <= now
    ensures Follows(p, s.(rings := s.rings[key := Add(RingOf(p, s, key), now, now, false, 1)], grants := s.grants
        + [Entry(key, now, true)]), BucketOf(now))
  {
    var cur, w := BucketOf(now), RingOf(p, s, key);
    var t := s.(rings := s.rings[key := Add(w, now, now, false, 1)], grants := s.grants + [Entry(key, now, true)]);
    RingTracks(p, s, cur, key);
    AppendBumps(s.grants, key, now);
    AddTracks(w, now, now, false, 1, Counter(s.firsts, Live(key)), Counter(s.grants, Live(key)),
        Counter(t.firsts, Live(key)), Counter(t.grants, Live(key)));
    forall k | k in t.rings
      ensures |t.rings[k]| == Places(p.window)
          && Tracks(t.rings[k], cur, Counter(t.firsts, Live(k)), Counter(t.grants, Live(k)))
    {
      if k != key {
        SameTracks(s.rings[k], cur, Counter(s.firsts, Live(k)), Counter(s.grants, Live(k)), Counter(t.firsts, Live(k)),
            Counter(t.grants, Live(k)));
      }
    }
  }

  lemma ReserveFollows(p: Params, s: State, now: int, model: string)
    requires Follows(p, s, BucketOf(now)) && 0 <= now
    ensures Follows(p, Reserve(p, s, now, model).0, BucketOf(now))
  {
    var key := KeyFor(p, s.rings, model);
    RingTracks(p, s, BucketOf(now), key);
    if Reserve(p, s, now, model).1.Some? { GrantFollows(p, s, now, key); }
  }

  lemma KillBumps(es: seq<Entry>, i: nat)
    requires i < |es| && es[i].live
    ensures var es' := es[i := es[i].(live := false)];
            && Bumped(Counter(es, Live(es[i].key)), Counter(es', Live(es[i].key)), BucketOf(es[i].at), -1)
            && forall other, x :: other != es[i].key ==> CountAt(es', Live(other), x) == CountAt(es, Live(other), x)
  {
    var es' := es[i := es[i].(live := false)];
    forall k, x ensures CountAt(es', Live(k), x) == CountAt(es, Live(k), x) - if k == es[i].key
        && x == BucketOf(es[i].at) then 1 else 0 {
      CountReplace(es, i, es[i].(live := false), Live(k), x, 0, 0);
    }
  }

  lemma RefundFollows(p: Params, s: State, now: int, r: Option<nat>)
    requires Follows(p, s, BucketOf(now)) && (r.Some? ==> r.value < |s.grants|)
    ensures Follows(p, Refund(s, now, r), BucketOf(now))
  {
    if r.Some? && s.grants[r.value].live {
      var g, cur, t := s.grants[r.value], BucketOf(now), Refund(s, now, r);
      var w := s.rings[g.key];
      KillBumps(s.grants, r.value);
      if BucketOf(g.at) <= cur - |w| {
        AddOutside(w, g.at, now, false, -1, Counter(s.firsts, Live(g.key)), Counter(s.grants, Live(g.key)),
            Counter(t.firsts, Live(g.key)), Counter(t.grants, Live(g.key)));
      } else {
        AddTracks(w, g.at, now, false, -1, Counter(s.firsts, Live(g.key)), Counter(s.grants, Live(g.key)),
            Counter(t.firsts, Live(g.key)), Counter(t.grants, Live(g.key)));
      }
      forall k | k in t.rings
        ensures |t.rings[k]| == Places(p.window)
            && Tracks(t.rings[k], cur, Counter(t.firsts, Live(k)), Counter(t.grants, Live(k)))
      {
        if k != g.key {
          SameTracks(s.rings[k], cur, Counter(s.firsts, Live(k)), Counter(s.grants, Live(k)),
              Counter(t.firsts, Live(k)), Counter(t.grants, Live(k)));
        }
      }
    }
  }

  // ------------------------------------------------------------------ the budget

  /** Live retries, and first attempts, of a key in the window that ends now. */
  function RetriesNow(p: Params, s: State, now: int, key: string): nat {
    CountIn(s.grants, Live(key), BucketOf(now) - Places(p.window) + 1, BucketOf(now) + 1)
  }

  function FirstsNow(p: Params, s: State, now: int, key: string): nat {
    CountIn(s.firsts, Live(key), BucketOf(now) - Places(p.window) + 1, BucketOf(now) + 1)
  }

  /** What the window's sum means. */
  lemma SumIsHistory(p: Params, s: State, now: int, key: string)
    requires Follows(p, s, BucketOf(now)) && 0 <= now
    ensures Sum(RingOf(p, s, key), now) == (FirstsNow(p, s, now, key), RetriesNow(p, s, now, key))
  {
    var lo, hi := BucketOf(now) - Places(p.window) + 1, BucketOf(now) + 1;
    RingTracks(p, s, BucketOf(now), key);
    CountedSum(RingOf(p, s, key), now, s.firsts, s.grants, key, lo, hi);
  }

  lemma CountedSum(w: Ring, now: int, firsts: seq<Entry>, grants: seq<Entry>, key: string, lo: int, hi: int)
    requires Tracks(w, BucketOf(now), Counter(firsts, Live(key)), Counter(grants, Live(key)))
        && lo == BucketOf(now) - |w| + 1 && hi == BucketOf(now) + 1
    ensures Sum(w, now) == (CountIn(firsts, Live(key), lo, hi), CountIn(grants, Live(key), lo, hi))
  {
    var f, g := Counter(firsts, Live(key)), Counter(grants, Live(key));
    assert Sum(w, now) == (RangeSum(f, lo, hi), RangeSum(g, lo, hi)) by { SumIsCount(w, now, f, g); }
    assert RangeSum(f, lo, hi) == CountIn(firsts, Live(key), lo, hi) by { CountsAgree(firsts, Live(key), lo, hi); }
    assert RangeSum(g, lo, hi) == CountIn(grants, Live(key), lo, hi) by { CountsAgree(grants, Live(key), lo, hi); }
  }

  /** A retry is granted exactly when the live retries of the window are below its limit. */
  lemma GrantedExactly(p: Params, s: State, now: int, model: string)
    requires Follows(p, s, BucketOf(now)) && 0 <= now
    ensures var (t, r) := Reserve(p, s, now, model); var key := KeyFor(p, s.rings, model);
            && (r.Some? <==> RetriesNow(p, s, now, key) < Limit(p, FirstsNow(p, s, now, key)))
            && t.firsts == s.firsts && t.grants == if r.Some? then s.grants + [Entry(key, now, true)] else s.grants
  {
    SumIsHistory(p, s, now, KeyFor(p, s.rings, model));
  }

  /** And then the live retries of the window stay within the limit, that one included. */
  lemma GrantIsWithinBudget(p: Params, s: State, now: int, model: string)
    requires Follows(p, s, BucketOf(now)) && 0 <= now && Reserve(p, s, now, model).1.Some?
    ensures var t := Reserve(p, s, now, model).0; var key := KeyFor(p, s.rings, model);
            RetriesNow(p, t, now, key) == RetriesNow(p, s, now, key) + 1 <= Limit(p, FirstsNow(p, t, now, key))
  {
    var key := KeyFor(p, s.rings, model);
    GrantedExactly(p, s, now, model);
    CountAppend(s.grants, Entry(key, now, true), Live(key));
  }

  /** A refund gives back exactly one retry of the window, if it is still there, and only once. */
  lemma RefundOnce(p: Params, s: State, now: int, later: int, r: nat, key: string)
    requires r < |s.grants|
    ensures var t := Refund(s, now, Some(r)); var g := s.grants[r];
            && RetriesNow(p, t, now, key)
               == RetriesNow(p, s, now, key)
                  - (if g.live && g.key == key && BucketOf(now) - Places(p.window) < BucketOf(g.at) <= BucketOf(now)
                      then 1 else 0)
            && Refund(t, later, Some(r)) == t
  {
    CountReplace(s.grants, r, s.grants[r].(live := false), Live(key), 0, BucketOf(now) - Places(p.window) + 1,
        BucketOf(now) + 1);
  }

  // ------------------------------------------------------------------ runs

  datatype Op = First(now: int, model: string) | Retry(now: int, model: string) | GiveBack(now: int, r: Option<nat>)

  function Step(p: Params, s: State, op: Op): State {
    match op
    case First(now, model) => NoteFirst(p, s, now, model)
    case Retry(now, model) => Reserve(p, s, now, model).0
    case GiveBack(now, r) => if r.Some? && r.value >= |s.grants| then s else Refund(s, now, r)
  }

  function After(p: Params, ops: seq<Op>): State {
    if ops == [] then Empty else Step(p, After(p, ops[..|ops| - 1]), ops[|ops| - 1])
  }

  /** A clock that starts at or after the epoch and never goes back. */
  ghost predicate Timed(ops: seq<Op>) {
    && (forall i :: 0 <= i < |ops| ==> 0 <= ops[i].now)
    && forall i, j :: 0 <= i < j < |ops| ==> ops[i].now <= ops[j].now
  }

  lemma {:induction false} RunsFollow(p: Params, ops: seq<Op>, now: int)
    requires Timed(ops) && 0 <= now && (ops != [] ==> ops[|ops| - 1].now <= now)
    ensures Follows(p, After(p, ops), BucketOf(now))
  {
    if ops != [] {
      var init, op := ops[..|ops| - 1], ops[|ops| - 1];
      RunsFollow(p, init, op.now);
      StepFollows(p, After(p, init), op);
      Later(p, After(p, ops), BucketOf(op.now), BucketOf(now));
    }
  }

  lemma StepFollows(p: Params, s: State, op: Op)
    requires Follows(p, s, BucketOf(op.now)) && 0 <= op.now
    ensures Follows(p, Step(p, s, op), BucketOf(op.now))
  {
    match op
    case First(now, model) => NoteFirstFollows(p, s, now, model);
    case Retry(now, model) => ReserveFollows(p, s, now, model);
    case GiveBack(now, r) => if r.None? || r.value < |s.grants| { RefundFollows(p, s, now, r); }
  }

  /** The budget over every run: whatever first attempts, retries and refunds came before, a granted retry keeps the
      unrefunded retries of its window within the limit that the window's first attempts give. */
  lemma RetriesStayWithinBudget(p: Params, ops: seq<Op>, now: int, model: string)
    requires Timed(ops + [Retry(now, model)])
    ensures var s := After(p, ops); var (t, r) := Reserve(p, s, now, model); var key := KeyFor(p, s.rings, model);
            && After(p, ops + [Retry(now, model)]) == t
            && (r.Some? <==> RetriesNow(p, s, now, key) < Limit(p, FirstsNow(p, s, now, key)))
            && (r.Some? ==> RetriesNow(p, t, now, key) <= Limit(p, FirstsNow(p, t, now, key)))
  {
    var all := ops + [Retry(now, model)];
    assert all[..|ops|] == ops && all[|ops|].now == now;
    forall i | 0 <= i < |ops| ensures ops[i].now == all[i].now {}
    RunsFollow(p, ops, now);
    GrantedExactly(p, After(p, ops), now, model);
    if Reserve(p, After(p, ops), now, model).1.Some? { GrantIsWithinBudget(p, After(p, ops), now, model); }
  }

  // ------------------------------------------------------------------ the implementation

  class RetryBudget {
    const p: Params
    var rings: map<string, Ring>
    var grants: seq<Entry>
    ghost var firsts: seq<Entry>

    ghost function St(): State
      reads this
    {
      State(rings, firsts, grants)
    }

    constructor (p: Params)
      ensures this.p == p && St() == Empty
    {
      this.p := p;
      rings, grants, firsts := map[], [], [];
    }

    method WindowOf(model: string) returns (w: Ring, key: string)
      modifies this`rings
      ensures key == KeyFor(p, old(rings), model) && w == RingOf(p, old(St()), key) && rings == old(rings)[key := w]
    {
      key := model;
      if model !in rings && p.maxModels > 0 && |rings| >= p.maxModels && model != OTHER_MODEL { key := OTHER_MODEL; }
      if key !in rings { rings := rings[key := Fresh(Places(p.window))]; }
      w := rings[key];
    }

    method Note(now: int, model: string)
      modifies this
      ensures St() == NoteFirst(p, old(St()), now, model)
    {
      var w, key := WindowOf(model);
      rings := rings[key := Add(w, now, now, true, 1)];
      firsts := firsts + [Entry(key, now, true)];
    }

    method Take(now: int, model: string) returns (r: Option<nat>)
      modifies this
      ensures (St(), r) == Reserve(p, old(St()), now, model)
    {
      var w, key := WindowOf(model);
      var (first, retries) := Sum(w, now);
      if retries >= Limit(p, first) { return None; }
      rings := rings[key := Add(w, now, now, false, 1)];
      grants := grants + [Entry(key, now, true)];
      assert rings == old(rings)[key := Add(w, now, now, false, 1)];
      return Some(|grants| - 1);
    }

    method GiveBackRetry(now: int, r: Option<nat>)
      requires r.Some? ==> r.value < |grants|
      modifies this
      ensures St() == Refund(old(St()), now, r)
    {
      if r.None? { return; }
      var g := grants[r.value];
      if !g.live { return; }
      grants := grants[r.value := g.(live := false)];
      if g.key in rings { rings := rings[g.key := Add(rings[g.key], g.at, now, false, -1)]; }
    }
  }
}
