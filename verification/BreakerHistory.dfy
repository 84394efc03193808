/** The trip rule against the plain list of outcomes since the breaker last closed: the streak ring and the sliding
    window decide exactly what the list says. */
module BreakerHistory {
  import opened Prelude
  import opened Window
  import opened History
  import opened Breaker
  import opened BreakerProtocol

  /** One outcome and the attempt it belongs to. An OK whose stream later broke is not counted any more. */
  datatype Event = Event(at: int, v: Verdict, counted: bool, who: nat)

  function All(): Event -> Option<int> { (e: Event) => if e.counted then Some(BucketOf(e.at)) else None }

  function Faults(): Event -> Option<int> {
    (e: Event) => if e.counted && e.v != OK then Some(BucketOf(e.at)) else None
  }

  /** The times of the faults since the last OK; an unlisted server error neither extends nor breaks the streak. */
  function StreakOf(h: seq<Event>): seq<int> {
    if h == [] then []
    else
      var e, before := h[|h| - 1], StreakOf(h[..|h| - 1]);
      match e.v
      case OK => []
      case Fault => before + [e.at]
      case _ => before
  }

  /** The rule on the list whose last outcome is now: N faults in a row within the window, or the windowed ratio. */
  function Rule(p: Params, h: seq<Event>, now: int): Reason
    requires Sane(p) && h != []
  {
    var fs, n := StreakOf(h), p.consecutiveFailures;
    if h[|h| - 1].v != OK && |fs| >= n && now - fs[|fs| - n] <= p.window then Consecutive(n)
    else
      var lo, hi := BucketOf(now) - Places(p.window) + 1, BucketOf(now) + 1;
      var total, faults := CountIn(h, All(), lo, hi), CountIn(h, Faults(), lo, hi);
      if p.failureRatio > 0.0 && total >= p.minVolume && total > 0 && faults as real >= p.failureRatio * total as real
      then Ratio(faults) else NoTrip
  }

  // ------------------------------------------------------------------ the streak ring

  ghost predicate StreakHeld(b: State, fs: seq<int>) {
    var n := |b.streak|;
    && n > 0 && b.streakLen == Min(|fs|, n) && b.streakPos == |fs| % n
    && forall i :: |fs| - b.streakLen <= i < |fs| ==> b.streak[i % n] == fs[i]
  }

  lemma ModBack(n: nat, x: nat)
    requires 0 < n <= x
    ensures (x - n) % n == x % n
  {
    var q := x / n;
    ModOf(n, q - 1, x % n, x - n);
  }

  lemma ModNext(n: nat, x: nat)
    requires n > 0
    ensures (x % n + 1) % n == (x + 1) % n
  {
    var q, r := x / n, x % n;
    var m := n * q;
    assert x == m + r;
    if r + 1 < n {
      ModOf(n, q, r + 1, x + 1);
    } else {
      assert n * (q + 1) == m + n;
      ModOf(n, q + 1, 0, x + 1);
    }
  }

  lemma StreakFault(b: State, fs: seq<int>, now: int)
    requires StreakHeld(b, fs)
    ensures StreakHeld(Counted(b, now, Fault), fs + [now])
  {
    var n, c := |b.streak|, Counted(b, now, Fault);
    ModNext(n, |fs|);
    forall i | |fs| + 1 - c.streakLen <= i < |fs| + 1 ensures c.streak[i % n] == (fs + [now])[i] {
      if i < |fs| {
        SlotFacts(n, i);
        SlotFacts(n, |fs|);
        if i % n == |fs| % n { SlotsApart(n, i, |fs|); }
      }
    }
  }

  /** The place that the next fault overwrites holds the oldest of the last N. */
  lemma OldestHeld(b: State, fs: seq<int>)
    requires StreakHeld(b, fs)
    ensures b.streakLen == |b.streak| <==> |fs| >= |b.streak|
    ensures |fs| >= |b.streak| ==> b.streak[b.streakPos] == fs[|fs| - |b.streak|]
  {
    var n := |b.streak|;
    if |fs| >= n { ModBack(n, |fs|); }
  }

  // ------------------------------------------------------------------ ring, window and list together

  /** The breaker's memory stands for the list h. */
  ghost predicate Represents(p: Params, b: State, h: seq<Event>, cur: int) {
    && Shaped(p, b) && StreakHeld(b, StreakOf(h)) && Tracks(b.win, cur, Counter(h, All()), Counter(h, Faults()))
    && Known(h, cur)
  }

  lemma CountedTracks(p: Params, w: Ring, h: seq<Event>, now: int, v: Verdict, who: nat)
    requires Tracks(w, BucketOf(now), Counter(h, All()), Counter(h, Faults())) && v != Neutral
    ensures var h' := h + [Event(now, v, true, who)]; var w1 := Add(w, now, now, true, 1);
            Tracks(if v == OK then w1 else Add(w1, now, now, false, 1), BucketOf(now), Counter(h', All()),
                Counter(h', Faults()))
  {
    var e := Event(now, v, true, who);
    var h', cur, w1 := h + [e], BucketOf(now), Add(w, now, now, true, 1);
    CountAppend(h, e, All());
    CountAppend(h, e, Faults());
    AddTracks(w, now, now, true, 1, Counter(h, All()), Counter(h, Faults()), Counter(h', All()), Counter(h, Faults()));
    if v == OK {
      SameTracks(w1, cur, Counter(h', All()), Counter(h, Faults()), Counter(h', All()), Counter(h', Faults()));
    } else {
      AddTracks(w1, now, now, false, 1, Counter(h', All()), Counter(h, Faults()), Counter(h', All()),
          Counter(h', Faults()));
    }
  }

  lemma StreakAppend(h: seq<Event>, e: Event)
    ensures StreakOf(h + [e]) == match e.v case OK => [] case Fault => StreakOf(h) + [e.at] case _ => StreakOf(h)
  {
    assert (h + [e])[..|h|] == h;
  }

  lemma CountedStreak(b: State, h: seq<Event>, now: int, v: Verdict, who: nat)
    requires StreakHeld(b, StreakOf(h)) && v != Neutral
    ensures StreakHeld(Counted(b, now, v), StreakOf(h + [Event(now, v, true, who)]))
  {
    StreakAppend(h, Event(now, v, true, who));
    if v == Fault { StreakFault(b, StreakOf(h), now); }
  }

  ghost predicate Known(h: seq<Event>, cur: int) {
    forall i :: 0 <= i < |h| ==> h[i].v != Neutral && BucketOf(h[i].at) <= cur
  }

  /** Counting one outcome keeps the memory and the list together. */
  lemma CountedRepresents(p: Params, b: State, h: seq<Event>, now: int, v: Verdict, who: nat)
    requires Sane(p) && Represents(p, b, h, BucketOf(now)) && v != Neutral
    ensures Represents(p, Counted(b, now, v), h + [Event(now, v, true, who)], BucketOf(now))
  {
    CountedTracks(p, b.win, h, now, v, who);
    CountedStreak(b, h, now, v, who);
    assert Known(h + [Event(now, v, true, who)], BucketOf(now));
  }

  lemma RatioFromHistory(p: Params, b: State, h: seq<Event>, now: int)
    requires Represents(p, b, h, BucketOf(now))
    ensures var lo, hi := BucketOf(now) - Places(p.window) + 1, BucketOf(now) + 1;
            Sum(b.win, now) == (CountIn(h, All(), lo, hi), CountIn(h, Faults(), lo, hi))
  {
    SumIsCount(b.win, now, Counter(h, All()), Counter(h, Faults()));
    CountsAgree(h, All(), BucketOf(now) - Places(p.window) + 1, BucketOf(now) + 1);
    CountsAgree(h, Faults(), BucketOf(now) - Places(p.window) + 1, BucketOf(now) + 1);
  }

  /** The decision read off the ring and the window is the rule on the list. */
  lemma TripIsRule(p: Params, b: State, h: seq<Event>, now: int)
    requires Sane(p) && h != [] && Represents(p, b, h, BucketOf(now))
    ensures TripReason(p, b, now, h[|h| - 1].v) == Rule(p, h, now)
  {
    StreakIsHeld(b, StreakOf(h), now, p.window);
    RatioFromHistory(p, b, h, now);
  }

  lemma StreakIsHeld(b: State, fs: seq<int>, now: int, window: int)
    requires StreakHeld(b, fs) && b.streakPos < |b.streak|
    ensures b.streakLen == |b.streak| && now - b.streak[b.streakPos] <= window
       <==> |fs| >= |b.streak| && now - fs[|fs| - |b.streak|] <= window
  {
    OldestHeld(b, fs);
  }

  lemma LaterRepresents(p: Params, b: State, h: seq<Event>, cur: int, later: int)
    requires Represents(p, b, h, cur) && cur <= later
    ensures Represents(p, b, h, later)
  {
    TracksLater(b.win, cur, later, Counter(h, All()), Counter(h, Faults()));
  }

  /** A new breaker and one that has just closed start from the empty list. */
  lemma StartsEmpty(p: Params, b: State, cur: int)
    requires Sane(p) && Shaped(p, b) && 0 <= cur && b.win == Fresh(Places(p.window)) && b.streakPos == 0
        && b.streakLen == 0
    ensures Represents(p, b, [], cur)
  {
    var none: seq<Event> := [];
    FreshTracks(Places(p.window), cur, Counter(none, All()), Counter(none, Faults()));
  }

  // ------------------------------------------------------------------ aborted streams

  /** Taking a counted OK out of the list. */
  lemma {:induction false} UncountStreak(h: seq<Event>, i: nat)
    requires i < |h|
    ensures StreakOf(h[i := h[i].(counted := false)]) == StreakOf(h)
  {
    var init, h' := h[..|h| - 1], h[i := h[i].(counted := false)];
    if i == |h| - 1 {
      assert h'[..|h| - 1] == init;
    } else {
      UncountStreak(init, i);
      assert h'[..|h| - 1] == init[i := h[i].(counted := false)];
    }
  }

  lemma UncountCounts(h: seq<Event>, i: nat)
    requires i < |h| && h[i].counted && h[i].v == OK
    ensures var h' := h[i := h[i].(counted := false)];
            Bumped(Counter(h, All()), Counter(h', All()), BucketOf(h[i].at), -1) && forall x ::
                CountAt(h', Faults(), x) == CountAt(h, Faults(), x)
  {
    var e := h[i].(counted := false);
    forall x ensures CountAt(h[i := e], All(), x) == CountAt(h, All(), x) - if x == BucketOf(h[i].at) then 1 else 0
             ensures CountAt(h[i := e], Faults(), x) == CountAt(h, Faults(), x)
    {
      CountReplace(h, i, e, All(), x, 0, 0);
      CountReplace(h, i, e, Faults(), x, 0, 0);
    }
  }

  /** Exactly when taking one off a bucket leaves the window right although the list is the same: the bucket has left
      the window, or nothing in it counts. */
  lemma TakenOffTracks(w: Ring, h: seq<Event>, t: int, now: int)
    requires Tracks(w, BucketOf(now), Counter(h, All()), Counter(h, Faults()))
    ensures Tracks(Add(w, t, now, true, -1), BucketOf(now), Counter(h, All()), Counter(h, Faults()))
       <==> Idle(|w|, h, BucketOf(t), BucketOf(now))
  {
    var f, g, y, cur := Counter(h, All()), Counter(h, Faults()), BucketOf(t), BucketOf(now);
    assert f(y) >= 0;
    if y <= cur - |w| {
      AddOutside(w, t, now, true, -1, f, g, f, g);
    } else if y <= cur {
      assert Held(w, y, true) == f(y);
      if f(y) == 0 { AddTracks(w, t, now, true, -1, f, g, f, g); }
    }
  }

  /** The bucket has left the window, or nothing in it counts. */
  predicate Idle(places: nat, h: seq<Event>, bucket: int, cur: int) {
    bucket <= cur - places || CountAt(h, All(), bucket) == 0
  }

  /** Exactly when the window is right after the OK's removal from the list: the time named lies in the OK's own
      bucket, or that bucket has left the window and the one named is idle. */
  lemma UncountTracks(w: Ring, h: seq<Event>, i: nat, okAt: int, now: int)
    requires i < |h| && h[i].counted && h[i].v == OK && BucketOf(h[i].at) <= BucketOf(now)
    requires Tracks(w, BucketOf(now), Counter(h, All()), Counter(h, Faults()))
    ensures var h' := h[i := h[i].(counted := false)];
            Tracks(Add(w, okAt, now, true, -1), BucketOf(now), Counter(h', All()), Counter(h', Faults()))
            <==> Names(|w|, h, i, okAt, BucketOf(now))
  {
    var h', x, cur := h[i := h[i].(counted := false)], BucketOf(h[i].at), BucketOf(now);
    var f, g, f', g' := Counter(h, All()), Counter(h, Faults()), Counter(h', All()), Counter(h', Faults());
    UncountCounts(h, i);
    if x <= cur - |w| {
      TakenOffTracks(w, h, okAt, now);
      SameWindow(Add(w, okAt, now, true, -1), cur, f, g, f', g');
    } else if BucketOf(okAt) == x {
      AddTracks(w, okAt, now, true, -1, f, g, f', g);
      SameTracks(Add(w, okAt, now, true, -1), cur, f', g, f', g');
    } else {
      AddElsewhere(w, okAt, now, x);
      assert Held(w, x, true) == f(x);
      CountReplace(h, i, h[i].(counted := false), All(), x, 0, 0);
      assert f'(x) == f(x) - 1;
    }
  }

  predicate Names(places: nat, h: seq<Event>, i: nat, okAt: int, cur: int)
    requires i < |h|
  {
    BucketOf(okAt) == BucketOf(h[i].at) || (BucketOf(h[i].at) <= cur - places && Idle(places, h, BucketOf(okAt), cur))
  }

  /** Buckets outside the window do not matter. */
  lemma SameWindow(w: Ring, cur: int, f: Counts, g: Counts, f': Counts, g': Counts)
    requires forall x :: x > cur - |w| ==> f'(x) == f(x) && g'(x) == g(x)
    ensures Tracks(w, cur, f', g') <==> Tracks(w, cur, f, g)
  {
  }

  lemma AddElsewhere(w: Ring, t: int, now: int, x: int)
    requires BucketOf(now) - |w| < x <= BucketOf(now) && BucketOf(t) != x
    ensures Held(Add(w, t, now, true, -1), x, true) == Held(w, x, true)
  {
    if BucketOf(now) - |w| < BucketOf(t) <= BucketOf(now) && Slot(|w|, x) == Slot(|w|, BucketOf(t)) {
      SlotsApart(|w|, x, BucketOf(t));
    }
  }

  // ------------------------------------------------------------------ one operation

  /** Where the attempt's own OK is in the list, while it counts. */
  function FindOk(h: seq<Event>, who: nat): (r: Option<nat>)
    ensures r.Some? ==> r.value < |h| && h[r.value].counted && h[r.value].v == OK && h[r.value].who == who
  {
    if h == [] then None
    else
      var e := h[|h| - 1];
      if e.counted && e.v == OK && e.who == who then Some(|h| - 1) else FindOk(h[..|h| - 1], who)
  }

  /** The list without the OK that the attempt takes back. */
  function Without(h: seq<Event>, who: nat): seq<Event> {
    var i := FindOk(h, who);
    if i.None? then h else h[i.value := h[i.value].(counted := false)]
  }

  /** The time that an abort names lies in the bucket where the OK was recorded, or that bucket has left the window. */
  predicate SameBucket(places: nat, okAt: int, at: int, now: int) {
    BucketOf(okAt) == BucketOf(at) || BucketOf(at) <= BucketOf(now) - places
  }

  /** Exactly when taking back is right. If the attempt's own OK is in the list, the time named lies in its bucket (or
      that bucket has left the window and the one named is idle); if it is not, the bucket named is idle, so that
      nobody else's outcome is taken. */
  predicate Fits(places: nat, h: seq<Event>, who: nat, okAt: int, now: int) {
    match FindOk(h, who)
    case Some(i) => Names(places, h, i, okAt, BucketOf(now))
    case None => Idle(places, h, BucketOf(okAt), BucketOf(now))
  }

  /** Taking back keeps memory and list together exactly when it fits, whatever the attempt and the time it names. */
  lemma AbortRepresents(p: Params, b: State, h: seq<Event>, who: nat, okAt: int, now: int)
    requires Represents(p, b, h, BucketOf(now))
    ensures Represents(p, b.(win := Add(b.win, okAt, now, true, -1)), Without(h, who), BucketOf(now))
       <==> Fits(|b.win|, h, who, okAt, now)
  {
    if FindOk(h, who).Some? {
      UncountTracks(b.win, h, FindOk(h, who).value, okAt, now);
      UncountStreak(h, FindOk(h, who).value);
    } else {
      TakenOffTracks(b.win, h, okAt, now);
    }
  }

  /** For an OK that is in the list and was recorded no earlier than the abort says, what fits is its own bucket. */
  lemma FitsOwnOk(places: nat, h: seq<Event>, who: nat, okAt: int, now: int)
    requires FindOk(h, who).Some? && BucketOf(okAt) <= BucketOf(h[FindOk(h, who).value].at)
    ensures Fits(places, h, who, okAt, now) <==> SameBucket(places, okAt, h[FindOk(h, who).value].at, now)
  {
  }

  /** The outcome that an operation counts on a closed breaker. */
  function OutcomeOf(b: State, op: Op): (v: Option<Verdict>)
    ensures v.Some? ==> op.Judge? || op.JudgeLate? || op.Abort?
  {
    match op
    case Judge(_, _, t, v, _, _) => if !t.probe && t.epoch == b.epoch && v != Neutral then Some(v) else None
    case JudgeLate(_, _, t, v, _, _) => if t.epoch == b.epoch && (v == Fault || v == RatioFault) then Some(v) else None
    case Abort(_, _, t, _, _, _) => if t.epoch == b.epoch then Some(Fault) else None
    case _ => None
  }

  /** The operation takes an OK back before it counts. */
  predicate Converting(b: State, op: Op) { op.Abort? && !op.t.probe && op.t.epoch == b.epoch }

  /** The list that the outcome is judged on. */
  function Grown(b: State, h: seq<Event>, op: Op): seq<Event> {
    var v := OutcomeOf(b, op);
    if v.None? then h else (if Converting(b, op) then Without(h, op.who) else h)
                           + [Event(op.now, v.value, true, op.who)]
  }

  /** The list after an operation: it starts again whenever the breaker closes. */
  function HistoryNext(p: Params, b: State, h: seq<Event>, op: Op): seq<Event>
    requires Sane(p) && Shaped(p, b)
  {
    if b.phase != Closed || Step(p, b, op).phase != Closed then [] else Grown(b, h, op)
  }

  /** The memory that the outcome is judged on. */
  function Counting(b: State, op: Op): State
    requires |b.streak| > 0 && b.streakPos < |b.streak| && OutcomeOf(b, op).Some?
  {
    Counted(if Converting(b, op) then b.(win := Add(b.win, op.okAt, op.now, true, -1))
        else b, op.now, OutcomeOf(b, op).value)
  }

  /** What an abort on a closed breaker needs of the list. */
  ghost predicate AbortMatches(b: State, h: seq<Event>, op: Op) {
    Converting(b, op) && b.phase == Closed ==> Fits(|b.win|, h, op.who, op.okAt, op.now)
  }

  lemma CountingRepresents(p: Params, b: State, h: seq<Event>, op: Op)
    requires Sane(p) && b.phase == Closed && Represents(p, b, h, BucketOf(op.now)) && OutcomeOf(b, op).Some?
        && AbortMatches(b, h, op)
    ensures Represents(p, Counting(b, op), Grown(b, h, op), BucketOf(op.now))
    ensures TripReason(p, Counting(b, op), op.now, OutcomeOf(b, op).value) == Rule(p, Grown(b, h, op), op.now)
  {
    var v := OutcomeOf(b, op).value;
    if Converting(b, op) {
      AbortRepresents(p, b, h, op.who, op.okAt, op.now);
      CountedRepresents(p, b.(win := Add(b.win, op.okAt, op.now, true, -1)), Without(h, op.who), op.now, v, op.who);
    } else {
      CountedRepresents(p, b, h, op.now, v, op.who);
    }
    TripIsRule(p, Counting(b, op), Grown(b, h, op), op.now);
  }

  /** What an operation does to a closed breaker, in terms of the outcome it counts. */
  lemma ClosedStep(p: Params, b: State, op: Op)
    requires Inv(p, b) && b.phase == Closed
    ensures var c := Step(p, b, op);
            if OutcomeOf(b, op).None? then c == b
            else if TripReason(p, Counting(b, op), op.now, OutcomeOf(b, op).value) == NoTrip
                then c == Counting(b, op).(suppressed := false)
            else if !op.room then c == Counting(b, op).(suppressed := true)
            else c.phase == Open && c == Opened(p, Counting(b, op), op.now, false, op.rnd)
  {
    assert b.tickets == map[];
  }

  lemma SuppressionAside(p: Params, b: State, h: seq<Event>, cur: int, flag: bool)
    requires Represents(p, b, h, cur)
    ensures Represents(p, b.(suppressed := flag), h, cur)
  {
  }

  /** A closed breaker opens exactly when the outcome counted now makes the rule hold on the list and the ejection cap
      has room. */
  lemma OpensExactlyByRule(p: Params, b: State, h: seq<Event>, op: Op)
    requires Inv(p, b) && b.phase == Closed && Represents(p, b, h, BucketOf(op.now)) && AbortMatches(b, h, op)
    ensures Step(p, b, op).phase == Open <==> OutcomeOf(b, op).Some? && Rule(p, Grown(b, h, op), op.now) != NoTrip
                                              && op.room
  {
    TripOfStep(p, b, op);
    if OutcomeOf(b, op).Some? { CountingRepresents(p, b, h, op); }
  }

  lemma TripOfStep(p: Params, b: State, op: Op)
    requires Inv(p, b) && b.phase == Closed
    ensures Step(p, b, op).phase == Open
       <==> OutcomeOf(b, op).Some? && TripReason(p, Counting(b, op), op.now, OutcomeOf(b, op).value) != NoTrip
            && op.room
  {
    ClosedStep(p, b, op);
  }

  /** While it stays closed, the memory and the list stay together. */
  lemma StaysRepresented(p: Params, b: State, h: seq<Event>, op: Op)
    requires Inv(p, b) && b.phase == Closed && Represents(p, b, h, BucketOf(op.now)) && AbortMatches(b, h, op)
    requires Step(p, b, op).phase == Closed
    ensures Represents(p, Step(p, b, op), Grown(b, h, op), BucketOf(op.now))
  {
    ClosedStep(p, b, op);
    if OutcomeOf(b, op).Some? {
      CountingRepresents(p, b, h, op);
      SuppressionAside(p, Counting(b, op), Grown(b, h, op), BucketOf(op.now), Step(p, b, op).suppressed);
    }
  }

  lemma JustClosed(p: Params, b: State, op: Op)
    requires Inv(p, b) && Step(p, b, op).phase == Closed && b.phase != Closed && 0 <= op.now
    ensures Represents(p, Step(p, b, op), [], BucketOf(op.now))
  {
    if !op.Relax? { ClosesOnlyByProbing(p, b, op); }
    StartsEmpty(p, Step(p, b, op), BucketOf(op.now));
  }

  lemma StepRepresents(p: Params, b: State, h: seq<Event>, op: Op)
    requires Inv(p, b) && 0 <= op.now && (b.phase == Closed ==> Represents(p, b, h, BucketOf(op.now)))
        && AbortMatches(b, h, op)
    requires Step(p, b, op).phase == Closed
    ensures Represents(p, Step(p, b, op), HistoryNext(p, b, h, op), BucketOf(op.now))
  {
    if b.phase == Closed { StaysRepresented(p, b, h, op); } else { JustClosed(p, b, op); }
  }

  // ------------------------------------------------------------------ runs

  /** The list before each operation of a run that starts with a new breaker. */
  ghost predicate Logged(p: Params, ops: seq<Op>, bs: seq<State>, hs: seq<seq<Event>>) {
    && Run(p, ops, bs) && bs[0].phase == Closed && bs[0].epoch == 0 && |hs| == |ops| + 1 && hs[0] == []
    && forall i :: 0 <= i < |ops| ==> Logs(p, ops, bs, hs, i)
  }

  ghost predicate Logs(p: Params, ops: seq<Op>, bs: seq<State>, hs: seq<seq<Event>>, i: nat) {
    i < |ops| && i + 1 < |hs| && i < |bs| && Inv(p, bs[i]) && hs[i + 1] == HistoryNext(p, bs[i], hs[i], ops[i])
  }

  /** A clock that starts at or after the epoch and never goes back. */
  ghost predicate Timed(ops: seq<Op>) {
    && (forall i :: 0 <= i < |ops| ==> 0 <= ops[i].now)
    && forall i, j :: 0 <= i < j < |ops| ==> ops[i].now <= ops[j].now
  }

  predicate Speaks(op: Op, who: nat) { (op.Judge? || op.JudgeLate? || op.Abort?) && op.who == who }

  /** Operation a issued this ticket. */
  ghost predicate IssuedAt(p: Params, ops: seq<Op>, bs: seq<State>, a: nat, t: Ticket) {
    a < |ops| && a < |bs| && ops[a].Take? && Acquired(p, bs[a], ops[a].now).1 == Some(t)
  }

  /** A ticket the attempt can hold: issued earlier in the run, or handed out while the worker had no breaker yet. */
  ghost predicate Issued(p: Params, ops: seq<Op>, bs: seq<State>, i: nat, t: Ticket) {
    t.epoch == 0 || exists a :: 0 <= a < i && IssuedAt(p, ops, bs, a, t)
  }

  /** Operation i recorded the OK that operation j takes back: the same attempt with the same ticket, and nothing from
      that attempt in between. */
  ghost predicate OkOf(p: Params, ops: seq<Op>, bs: seq<State>, i: nat, j: nat) {
    && i < j < |ops| && ops[i].Judge? && ops[i].v == OK && ops[j].Abort?
    && ops[i].who == ops[j].who && ops[i].t == ops[j].t && !ops[j].t.probe && Issued(p, ops, bs, i, ops[j].t)
    && BucketOf(ops[j].okAt) <= BucketOf(ops[i].now)
    && forall n :: i < n < j ==> !Speaks(ops[n], ops[j].who)
  }

  /** The abort j of a plain ticket takes back the attempt's own OK and names its bucket. */
  ghost predicate NamesItsOk(p: Params, ops: seq<Op>, bs: seq<State>, j: nat) {
    j < |ops| && (ops[j].Abort? && !ops[j].t.probe ==>
      exists i: nat :: OkOf(p, ops, bs, i, j) && SameBucket(Places(p.window), ops[j].okAt, ops[i].now, ops[j].now))
  }

  // ------------------------------------------------------------------ the OK is still there

  /** From the ticket's issue to an operation in the same open period the breaker was closed throughout. */
  lemma {:induction false} ClosedSince(p: Params, ops: seq<Op>, bs: seq<State>, a: nat, n: nat, j: nat)
    requires Run(p, ops, bs) && a <= n <= j < |bs| && bs[a].phase == Closed && bs[j].epoch == bs[a].epoch
    ensures bs[n].phase == Closed && bs[n].epoch == bs[a].epoch
    decreases n
  {
    EpochsGrow(p, ops, bs, n, j);
    EpochsGrow(p, ops, bs, a, n);
    if a < n {
      EpochsGrow(p, ops, bs, a, n - 1);
      EpochsGrow(p, ops, bs, n - 1, j);
      ClosedSince(p, ops, bs, a, n - 1, j);
      MoveAt(p, ops, bs, n - 1);
    }
  }

  lemma {:induction false} EpochsGrow(p: Params, ops: seq<Op>, bs: seq<State>, i: nat, j: nat)
    requires Run(p, ops, bs) && i <= j < |bs|
    ensures bs[i].epoch <= bs[j].epoch
    decreases j
  {
    if i < j {
      EpochsGrow(p, ops, bs, i, j - 1);
      MoveAt(p, ops, bs, j - 1);
    }
  }

  /** A plain ticket is issued by a closed breaker of that epoch. */
  lemma PlainTicket(p: Params, b: State, now: int, t: Ticket)
    requires Acquired(p, b, now).1 == Some(t) && !t.probe
    ensures b.phase == Closed && b.epoch == t.epoch
  {
  }

  lemma ClosedBetween(p: Params, ops: seq<Op>, bs: seq<State>, i: nat, j: nat, n: nat)
    requires Run(p, ops, bs) && bs[0].phase == Closed && bs[0].epoch == 0
    requires OkOf(p, ops, bs, i, j) && bs[j].epoch == ops[j].t.epoch && i <= n <= j
    ensures bs[n].phase == Closed && bs[n].epoch == ops[j].t.epoch
  {
    var t := ops[j].t;
    if t.epoch == 0 {
      ClosedSince(p, ops, bs, 0, n, j);
    } else {
      var a :| 0 <= a < i && IssuedAt(p, ops, bs, a, t);
      PlainTicket(p, bs[a], ops[a].now, t);
      ClosedSince(p, ops, bs, a, n, j);
    }
  }

  lemma FindOkAppend(h: seq<Event>, e: Event, who: nat)
    ensures FindOk(h + [e], who) == if e.counted && e.v == OK && e.who == who then Some(|h|) else FindOk(h, who)
  {
    assert (h + [e])[..|h|] == h;
  }

  lemma {:induction false} FindOkOther(h: seq<Event>, i: nat, who: nat)
    requires i < |h| && h[i].who != who
    ensures FindOk(h[i := h[i].(counted := false)], who) == FindOk(h, who)
  {
    var h' := h[i := h[i].(counted := false)];
    if i < |h| - 1 {
      FindOkOther(h[..|h| - 1], i, who);
      assert h'[..|h| - 1] == h[..|h| - 1][i := h[i].(counted := false)];
    } else {
      assert h'[..|h| - 1] == h[..|h| - 1];
    }
  }

  lemma {:induction false} FindOkLess(h: seq<Event>, i: nat, who: nat)
    requires i < |h| && FindOk(h[i := h[i].(counted := false)], who).Some?
    ensures FindOk(h, who).Some?
  {
    var h' := h[i := h[i].(counted := false)];
    if i < |h| - 1 {
      assert h'[..|h| - 1] == h[..|h| - 1][i := h[i].(counted := false)];
      if FindOk(h'[..|h| - 1], who).Some? { FindOkLess(h[..|h| - 1], i, who); }
    } else {
      assert h'[..|h| - 1] == h[..|h| - 1];
    }
  }

  /** What the list says about an attempt's OK: recorded then, and still counted. */
  ghost predicate HasOk(h: seq<Event>, who: nat, at: int) { var i := FindOk(h, who); i.Some? && h[i.value].at == at }

  lemma GrownKeepsOk(b: State, h: seq<Event>, op: Op, who: nat, at: int)
    requires HasOk(h, who, at) && !Speaks(op, who)
    ensures HasOk(Grown(b, h, op), who, at)
  {
    if OutcomeOf(b, op).Some? {
      var base := if Converting(b, op) then Without(h, op.who) else h;
      if Converting(b, op) && FindOk(h, op.who).Some? { FindOkOther(h, FindOk(h, op.who).value, who); }
      FindOkAppend(base, Event(op.now, OutcomeOf(b, op).value, true, op.who), who);
    }
  }

  /** An attempt's OK is in the list because it was there before or is counted now. */
  lemma GrownHasOk(b: State, h: seq<Event>, op: Op, who: nat)
    requires FindOk(Grown(b, h, op), who).Some?
    ensures FindOk(h, who).Some? || (op.Judge? && op.v == OK && op.who == who && OutcomeOf(b, op) == Some(OK))
  {
    if OutcomeOf(b, op).Some? {
      var base := if Converting(b, op) then Without(h, op.who) else h;
      FindOkAppend(base, Event(op.now, OutcomeOf(b, op).value, true, op.who), who);
      if FindOk(base, who).Some? && Converting(b, op) && FindOk(h, op.who).Some? {
        FindOkLess(h, FindOk(h, op.who).value, who);
      }
    }
  }

  /** One operation between the OK and its abort, with the breaker closed before and after it. */
  lemma KeepsOkAt(p: Params, ops: seq<Op>, bs: seq<State>, hs: seq<seq<Event>>, n: nat, who: nat, at: int)
    requires Logged(p, ops, bs, hs) && n < |ops| && bs[n].phase == Closed && bs[n + 1].phase == Closed
    requires HasOk(hs[n], who, at) && !Speaks(ops[n], who)
    ensures HasOk(hs[n + 1], who, at)
  {
    assert Logs(p, ops, bs, hs, n) && StepsTo(p, ops, bs, n);
    GrownKeepsOk(bs[n], hs[n], ops[n], who, at);
  }

  lemma RecordsOk(p: Params, ops: seq<Op>, bs: seq<State>, hs: seq<seq<Event>>, n: nat)
    requires Logged(p, ops, bs, hs) && n < |ops| && bs[n].phase == Closed && bs[n + 1].phase == Closed
    requires ops[n].Judge? && ops[n].v == OK && !ops[n].t.probe && ops[n].t.epoch == bs[n].epoch
    ensures HasOk(hs[n + 1], ops[n].who, ops[n].now)
  {
    assert Logs(p, ops, bs, hs, n) && StepsTo(p, ops, bs, n);
    FindOkAppend(hs[n], Event(ops[n].now, OK, true, ops[n].who), ops[n].who);
  }

  /** An epoch that has not changed means that the OK was counted, and it is still in the list when its abort comes. */
  lemma {:induction false} OkIsHeld(p: Params, ops: seq<Op>, bs: seq<State>, hs: seq<seq<Event>>, i: nat, j: nat,
      n: nat)
    requires Logged(p, ops, bs, hs) && OkOf(p, ops, bs, i, j) && bs[j].epoch == ops[j].t.epoch && i < n <= j
    ensures HasOk(hs[n], ops[j].who, ops[i].now)
    decreases n
  {
    ClosedBetween(p, ops, bs, i, j, n - 1);
    ClosedBetween(p, ops, bs, i, j, n);
    if n == i + 1 {
      RecordsOk(p, ops, bs, hs, i);
    } else {
      OkIsHeld(p, ops, bs, hs, i, j, n - 1);
      KeepsOkAt(p, ops, bs, hs, n - 1, ops[j].who, ops[i].now);
    }
  }

  lemma NamedOkMatches(p: Params, ops: seq<Op>, bs: seq<State>, hs: seq<seq<Event>>, j: nat)
    requires Logged(p, ops, bs, hs) && j < |ops| && NamesItsOk(p, ops, bs, j)
    ensures AbortMatches(bs[j], hs[j], ops[j])
  {
    if Converting(bs[j], ops[j]) {
      var i: nat :| OkOf(p, ops, bs, i, j) && SameBucket(Places(p.window), ops[j].okAt, ops[i].now, ops[j].now);
      OkIsHeld(p, ops, bs, hs, i, j, j);
      assert StepsTo(p, ops, bs, j);
      FitsOwnOk(|bs[j].win|, hs[j], ops[j].who, ops[j].okAt, ops[j].now);
    }
  }

  // ------------------------------------------------------------------ the rule over every run

  lemma RepresentsNext(p: Params, ops: seq<Op>, bs: seq<State>, hs: seq<seq<Event>>, n: nat)
    requires Logged(p, ops, bs, hs) && n < |ops| && 0 <= ops[n].now && AbortMatches(bs[n], hs[n], ops[n])
    requires bs[n].phase == Closed ==> Represents(p, bs[n], hs[n], BucketOf(ops[n].now))
    ensures bs[n + 1].phase == Closed ==> Represents(p, bs[n + 1], hs[n + 1], BucketOf(ops[n].now))
  {
    assert Logs(p, ops, bs, hs, n) && StepsTo(p, ops, bs, n);
    if bs[n + 1].phase == Closed { StepRepresents(p, bs[n], hs[n], ops[n]); }
  }

  /** In every run a closed breaker stands for the outcomes since it closed. */
  lemma {:induction false} RunsRepresent(p: Params, k: Key, ops: seq<Op>, bs: seq<State>, hs: seq<seq<Event>>, n: nat,
      now: int)
    requires Logged(p, ops, bs, hs) && Sane(p) && bs[0] == New(k, p) && Timed(ops) && n <= |ops|
    requires forall j :: 0 <= j < n ==> AbortMatches(bs[j], hs[j], ops[j])
    requires 0 <= now && (n > 0 ==> ops[n - 1].now <= now)
    ensures bs[n].phase == Closed ==> Represents(p, bs[n], hs[n], BucketOf(now))
  {
    if n == 0 {
      StartsEmpty(p, New(k, p), BucketOf(now));
    } else {
      RunsRepresent(p, k, ops, bs, hs, n - 1, ops[n - 1].now);
      RepresentsNext(p, ops, bs, hs, n - 1);
      if bs[n].phase == Closed { LaterRepresents(p, bs[n], hs[n], BucketOf(ops[n - 1].now), BucketOf(now)); }
    }
  }

  /** The trip rule refines the history in every run of a breaker up to the first abort that does not fit: a closed
      breaker opens at an operation if and only if that operation counts an outcome, the rule holds on the plain list
      of outcomes since the breaker last closed, and the cap has room. */
  lemma TripRefinesHistory(p: Params, k: Key, ops: seq<Op>, bs: seq<State>, hs: seq<seq<Event>>, j: nat)
    requires Logged(p, ops, bs, hs) && Sane(p) && bs[0] == New(k, p) && Timed(ops) && j < |ops| && bs[j].phase == Closed
    requires forall n :: 0 <= n <= j ==> AbortMatches(bs[n], hs[n], ops[n])
    ensures bs[j + 1].phase == Open
       <==> OutcomeOf(bs[j], ops[j]).Some? && Rule(p, Grown(bs[j], hs[j], ops[j]), ops[j].now) != NoTrip && ops[j].room
  {
    RunsRepresent(p, k, ops, bs, hs, j, ops[j].now);
    assert StepsTo(p, ops, bs, j);
    OpensExactlyByRule(p, bs[j], hs[j], ops[j]);
  }

  /** Before operation j a closed breaker stands for its list, and it still does after taking back what an abort
      names. */
  ghost predicate Stands(p: Params, b: State, h: seq<Event>, op: Op) {
    b.phase == Closed ==>
      && Represents(p, b, h, BucketOf(op.now))
      && (Converting(b, op) ==>
            Represents(p, b.(win := Add(b.win, op.okAt, op.now, true, -1)), Without(h, op.who), BucketOf(op.now)))
  }

  /** In every run a breaker stands for its list throughout if and only if every abort fits. */
  lemma MemoryIsExact(p: Params, k: Key, ops: seq<Op>, bs: seq<State>, hs: seq<seq<Event>>)
    requires Logged(p, ops, bs, hs) && Sane(p) && bs[0] == New(k, p) && Timed(ops)
    ensures (forall j :: 0 <= j < |ops| ==> Stands(p, bs[j], hs[j], ops[j]))
       <==> (forall j :: 0 <= j < |ops| ==> AbortMatches(bs[j], hs[j], ops[j]))
  {
    if forall j :: 0 <= j < |ops| ==> AbortMatches(bs[j], hs[j], ops[j]) {
      forall j | 0 <= j < |ops| ensures Stands(p, bs[j], hs[j], ops[j]) {
        RunsRepresent(p, k, ops, bs, hs, j, ops[j].now);
        StandsExactly(p, bs[j], hs[j], ops[j]);
      }
    } else {
      var j :| 0 <= j < |ops| && !AbortMatches(bs[j], hs[j], ops[j]);
      if Stands(p, bs[j], hs[j], ops[j]) { StandsExactly(p, bs[j], hs[j], ops[j]); }
    }
  }

  lemma StandsExactly(p: Params, b: State, h: seq<Event>, op: Op)
    requires b.phase == Closed ==> Represents(p, b, h, BucketOf(op.now))
    ensures Stands(p, b, h, op) <==> AbortMatches(b, h, op)
  {
    if b.phase == Closed && Converting(b, op) { AbortRepresents(p, b, h, op.who, op.okAt, op.now); }
  }

  /** After aborts that fitted, any abort leaves memory and list together exactly when it fits; for one that takes
      back its own OK, recorded on this breaker, this means that it names that OK's bucket or the bucket has left the
      window. */
  lemma TakingBackIsExact(p: Params, k: Key, ops: seq<Op>, bs: seq<State>, hs: seq<seq<Event>>, j: nat)
    requires Logged(p, ops, bs, hs) && Sane(p) && bs[0] == New(k, p) && Timed(ops)
    requires j < |ops| && bs[j].phase == Closed && Converting(bs[j], ops[j])
    requires forall n :: 0 <= n < j ==> AbortMatches(bs[n], hs[n], ops[n])
    ensures Represents(p, bs[j].(win := Add(bs[j].win, ops[j].okAt, ops[j].now, true, -1)), Without(hs[j], ops[j].who),
                       BucketOf(ops[j].now))
       <==> Fits(Places(p.window), hs[j], ops[j].who, ops[j].okAt, ops[j].now)
    ensures forall i: nat :: OkOf(p, ops, bs, i, j) ==>
              (Fits(Places(p.window), hs[j], ops[j].who, ops[j].okAt, ops[j].now)
               <==> SameBucket(Places(p.window), ops[j].okAt, ops[i].now, ops[j].now))
  {
    RunsRepresent(p, k, ops, bs, hs, j, ops[j].now);
    AbortRepresents(p, bs[j], hs[j], ops[j].who, ops[j].okAt, ops[j].now);
    forall i: nat | OkOf(p, ops, bs, i, j)
      ensures Fits(Places(p.window), hs[j], ops[j].who, ops[j].okAt, ops[j].now)
         <==> SameBucket(Places(p.window), ops[j].okAt, ops[i].now, ops[j].now)
    {
      OkIsHeld(p, ops, bs, hs, i, j, j);
      FitsOwnOk(Places(p.window), hs[j], ops[j].who, ops[j].okAt, ops[j].now);
    }
  }

  /** The outcomes since the breaker last closed, after these operations. */
  function HistoryOf(p: Params, k: Key, ops: seq<Op>): seq<Event>
    requires Sane(p)
  {
    if ops == [] then []
    else HistoryNext(p, After(p, k, ops[..|ops| - 1]), HistoryOf(p, k, ops[..|ops| - 1]), ops[|ops| - 1])
  }

  ghost function Lists(p: Params, k: Key, ops: seq<Op>): seq<seq<Event>>
    requires Sane(p)
  {
    seq(|ops| + 1, i requires 0 <= i <= |ops| => HistoryOf(p, k, ops[..i]))
  }

  lemma HistoryStep(p: Params, k: Key, ops: seq<Op>, i: nat)
    requires Sane(p) && i < |ops|
    ensures HistoryOf(p, k, ops[..i + 1]) == HistoryNext(p, After(p, k, ops[..i]), HistoryOf(p, k, ops[..i]), ops[i])
  {
    assert ops[..i + 1][..i] == ops[..i];
  }

  lemma ListsLogged(p: Params, k: Key, ops: seq<Op>)
    requires Sane(p)
    ensures Logged(p, ops, States(p, k, ops), Lists(p, k, ops)) && States(p, k, ops)[0] == New(k, p)
  {
    StatesRun(p, k, ops);
    forall i | 0 <= i < |ops| ensures Logs(p, ops, States(p, k, ops), Lists(p, k, ops), i) {
      HistoryStep(p, k, ops, i);
    }
  }

  /** Every abort among these operations of a new breaker fits. */
  ghost predicate AllFit(p: Params, k: Key, ops: seq<Op>)
    requires Sane(p)
  {
    forall i :: 0 <= i < |ops| ==> FitsAt(p, k, ops, i)
  }

  ghost predicate FitsAt(p: Params, k: Key, ops: seq<Op>, i: nat)
    requires Sane(p) && i < |ops|
  {
    AbortMatches(After(p, k, ops[..i]), HistoryOf(p, k, ops[..i]), ops[i])
  }

  lemma AllFitMore(p: Params, k: Key, ops: seq<Op>, o: Op)
    requires Sane(p) && AllFit(p, k, ops) && AbortMatches(After(p, k, ops), HistoryOf(p, k, ops), o)
    ensures AllFit(p, k, ops + [o])
  {
    var all := ops + [o];
    forall i | 0 <= i < |all| ensures FitsAt(p, k, all, i) {
      if i < |ops| {
        assert FitsAt(p, k, ops, i) && all[..i] == ops[..i];
      } else {
        assert all[..i] == ops;
      }
    }
  }

  /** After operations whose aborts fit, a closed breaker stands for its list. */
  lemma LastRepresents(p: Params, k: Key, ops: seq<Op>, now: int)
    requires Sane(p) && Timed(ops) && After(p, k, ops).phase == Closed && AllFit(p, k, ops)
    requires 0 <= now && (ops != [] ==> ops[|ops| - 1].now <= now)
    ensures Represents(p, After(p, k, ops), HistoryOf(p, k, ops), BucketOf(now))
  {
    ListsLogged(p, k, ops);
    var bs, hs := States(p, k, ops), Lists(p, k, ops);
    forall n | 0 <= n < |ops| ensures AbortMatches(bs[n], hs[n], ops[n]) { assert FitsAt(p, k, ops, n); }
    RunsRepresent(p, k, ops, bs, hs, |ops|, now);
    assert ops[..|ops|] == ops;
  }

  /** The same for the last operation of a sequence. */
  lemma LastTrips(p: Params, k: Key, before: seq<Op>, o: Op)
    requires Sane(p) && Timed(before + [o]) && After(p, k, before).phase == Closed && AllFit(p, k, before + [o])
    ensures var b, h := After(p, k, before), HistoryOf(p, k, before);
            Step(p, b, o).phase == Open <==> OutcomeOf(b, o).Some? && Rule(p, Grown(b, h, o), o.now) != NoTrip && o.room
  {
    var all := before + [o];
    ListsLogged(p, k, all);
    StatesRun(p, k, all);
    var bs, hs, j := States(p, k, all), Lists(p, k, all), |before|;
    assert all[..j] == before && all[j] == o;
    assert bs[j] == After(p, k, before) && hs[j] == HistoryOf(p, k, before);
    forall n | 0 <= n <= j ensures AbortMatches(bs[n], hs[n], all[n]) { assert FitsAt(p, k, all, n); }
    TripRefinesHistory(p, k, all, bs, hs, j);
    assert StepsTo(p, all, bs, j);
  }

  // ------------------------------------------------------------------ a run whose abort names another bucket

  const EDGE: Params := Params(10, 1.0, 1, 2 * BUCKET_WIDTH, 1, 1, 1, 1, 1.0, 0)
  const WORKER: Key := Key("w", 1)
  const PLAIN: Ticket := Ticket(WORKER, 0, 0, false, true)

  /** An OK recorded as the second turns, whose time was read just before, and whose stream then breaks. */
  const RECORDS: Op := Judge(BUCKET_WIDTH, 7, PLAIN, OK, true, 0.0)
  const BREAKS: Op := Abort(BUCKET_WIDTH, 7, PLAIN, BUCKET_WIDTH - 1, true, 0.0)

  /** The ring of EDGE with the OK, before and after the abort: the OK is still counted. */
  const WITH_OK: Ring := [Cell(0, 0, 0), Cell(1, 1, 0)]
  const WITH_BOTH: Ring := [Cell(0, 0, 0), Cell(1, 2, 1)]

  lemma EdgeRings()
    ensures Fresh(Places(EDGE.window)) == [Cell(0, 0, 0), Cell(0, 0, 0)]
    ensures Add(Fresh(Places(EDGE.window)), BUCKET_WIDTH, BUCKET_WIDTH, true, 1) == WITH_OK
    ensures Add(WITH_OK, BUCKET_WIDTH - 1, BUCKET_WIDTH, true, -1) == WITH_OK
    ensures Add(Add(WITH_OK, BUCKET_WIDTH, BUCKET_WIDTH, true, 1), BUCKET_WIDTH, BUCKET_WIDTH, false, 1) == WITH_BOTH
    ensures Sum(WITH_OK, BUCKET_WIDTH) == (1, 0) && Sum(WITH_BOTH, BUCKET_WIDTH) == (2, 1)
  {
    assert Places(EDGE.window) == 2;
    assert SumPlaces(WITH_OK, 1, 1) == (0, 0) && SumPlaces(WITH_BOTH, 1, 1) == (0, 0);
  }

  lemma EdgeRun() returns (bs: seq<State>)
    ensures Sane(EDGE) && Run(EDGE, [RECORDS, BREAKS], bs) && bs[0] == New(WORKER, EDGE)
    ensures forall i :: 0 <= i <= 2 ==> bs[i].phase == Closed && bs[i].epoch == 0
  {
    NewInv(EDGE, WORKER);
    var b0 := New(WORKER, EDGE);
    StepInv(EDGE, b0, RECORDS);
    var b1 := Step(EDGE, b0, RECORDS);
    var b2 := Step(EDGE, b1, BREAKS);
    bs := [b0, b1, b2];
    assert StepsTo(EDGE, [RECORDS, BREAKS], bs, 0);
    assert StepsTo(EDGE, [RECORDS, BREAKS], bs, 1);
    EdgeSteps(b0);
  }

  lemma EdgeSteps(b: State)
    requires b == New(WORKER, EDGE)
    ensures var c := Step(EDGE, b, RECORDS);
            Shaped(EDGE, c) && c.phase == Closed && c.epoch == 0 && Step(EDGE, c, BREAKS).phase == Closed
                && Step(EDGE, c, BREAKS).epoch == 0
  {
    EdgeRings();
  }

  lemma EdgeList()
    ensures var ok, late := Event(BUCKET_WIDTH, OK, true, 7), Event(BUCKET_WIDTH, Fault, true, 7);
            Without([ok], 7) == [ok.(counted := false)] && Rule(EDGE, [ok.(counted := false), late], BUCKET_WIDTH)
                == Ratio(1)
  {
    var ok, late := Event(BUCKET_WIDTH, OK, true, 7), Event(BUCKET_WIDTH, Fault, true, 7);
    var none: seq<Event> := [];
    var h := none + [ok.(counted := false)] + [late];
    CountAppend(none, ok.(counted := false), All());
    CountAppend(none, ok.(counted := false), Faults());
    CountAppend(none + [ok.(counted := false)], late, All());
    CountAppend(none + [ok.(counted := false)], late, Faults());
    StreakAppend(none + [ok.(counted := false)], late);
    StreakAppend(none, ok.(counted := false));
    assert h == [ok.(counted := false), late];
  }

  lemma TwoLogs(p: Params, ops: seq<Op>, bs: seq<State>, hs: seq<seq<Event>>)
    requires |ops| == 2 && |hs| == 3 && Run(p, ops, bs) && bs[0].epoch == 0
    requires bs[0].phase == Closed && bs[1].phase == Closed && bs[2].phase == Closed
    requires hs[0] == [] && hs[1] == Grown(bs[0], hs[0], ops[0]) && hs[2] == Grown(bs[1], hs[1], ops[1])
    ensures Logged(p, ops, bs, hs)
  {
    ClosedLogs(p, ops, bs, hs, 0);
    ClosedLogs(p, ops, bs, hs, 1);
  }

  lemma EdgeGrown(b: State, c: State)
    requires b.epoch == 0 && c.epoch == 0
    ensures var ok, late := Event(BUCKET_WIDTH, OK, true, 7), Event(BUCKET_WIDTH, Fault, true, 7);
            Grown(b, [], RECORDS) == [ok] && Grown(c, [ok], BREAKS) == [ok.(counted := false), late]
                && OutcomeOf(c, BREAKS) == Some(Fault)
  {
    EdgeList();
  }

  lemma ClosedLogs(p: Params, ops: seq<Op>, bs: seq<State>, hs: seq<seq<Event>>, n: nat)
    requires Run(p, ops, bs) && n < |ops| && n + 1 < |hs| && bs[n].phase == Closed && bs[n + 1].phase == Closed
    requires hs[n + 1] == Grown(bs[n], hs[n], ops[n])
    ensures Logs(p, ops, bs, hs, n)
  {
    assert StepsTo(p, ops, bs, n);
  }

  /** The list has one fault and nothing else that counts, so the rule trips; the breaker still counts the OK and does
      not. */
  lemma AbortNamesAnotherBucket() returns (bs: seq<State>, hs: seq<seq<Event>>)
    ensures Sane(EDGE) && Timed([RECORDS, BREAKS]) && Logged(EDGE, [RECORDS, BREAKS], bs, hs)
        && bs[0] == New(WORKER, EDGE)
    ensures OkOf(EDGE, [RECORDS, BREAKS], bs, 0, 1)
    ensures bs[1].phase == Closed && OutcomeOf(bs[1], BREAKS) == Some(Fault) && BREAKS.room
    ensures Rule(EDGE, Grown(bs[1], hs[1], BREAKS), BREAKS.now) == Ratio(1) && bs[2].phase == Closed
  {
    bs := EdgeRun();
    var h := Grown(bs[0], [], RECORDS);
    hs := [[], h, Grown(bs[1], h, BREAKS)];
    TwoLogs(EDGE, [RECORDS, BREAKS], bs, hs);
    EdgeGrown(bs[0], bs[1]);
    EdgeList();
  }
}
