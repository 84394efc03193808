/** The throughput ring of the mock worker (internal/mockworker/engine.go): the rate counts exactly the tokens of the
    complete buckets it covers. Times are nanoseconds. */
module Throughput {
  import opened Prelude

  const BUCKET_WIDTH := 100_000_000
  const WINDOW := 50
  const RING_SIZE := 51

  datatype Slot = Slot(idx: int, n: int)

  function Zeros(n: nat): (r: seq<Slot>)
    ensures |r| == n && forall i :: 0 <= i < n ==> r[i] == Slot(0, 0)
  {
    if n == 0 then [] else Zeros(n - 1) + [Slot(0, 0)]
  }

  type Slots = r: seq<Slot> | |r| == RING_SIZE witness Zeros(RING_SIZE)

  const Cleared: Slots := Zeros(RING_SIZE)

  /** The ring, the time of the first token, and the buckets of the busy period's start and of the last token. */
  datatype Meter = Meter(slots: Slots, epoch: int, first: int, last: int, started: bool)

  const Fresh: Meter := Meter(Cleared, 0, 0, 0, false)

  function BucketOf(epoch: int, now: int): nat { if now > epoch then (now - epoch) / BUCKET_WIDTH else 0 }

  function Put(slots: Slots, idx: nat, n: int): Slots {
    var s := slots[idx % RING_SIZE];
    slots[idx % RING_SIZE := Slot(idx, (if s.idx == idx then s.n else 0) + n)]
  }

  function Record(m: Meter, now: int, n: int): Meter {
    var epoch := if m.started then m.epoch else now;
    var idx := BucketOf(epoch, now);
    var restart := !m.started || idx - m.last > WINDOW;
    Meter(Put(if restart then Cleared else m.slots, idx, n), epoch, if restart then idx else m.first, idx, true)
  }

  /** Tokens in the first k places whose bucket is in lo .. hi - 1. */
  function Total(slots: Slots, lo: int, hi: int, k: nat): int
    requires k <= RING_SIZE
  {
    if k == 0 then 0 else Total(slots, lo, hi, k - 1) + if lo <= slots[k - 1].idx < hi then slots[k - 1].n else 0
  }

  /** How many complete buckets a reading covers. */
  function Covered(m: Meter, now: int): int { Min(BucketOf(m.epoch, now) - (m.first + 1), WINDOW) }

  function Rate(m: Meter, now: int): real {
    if !m.started || Covered(m, now) <= 0 then 0.0
    else
      var cur, covered := BucketOf(m.epoch, now), Covered(m, now);
      Total(m.slots, cur - covered, cur, RING_SIZE) as real / (covered as real * 0.1)
  }

  /** The loop of a reading. */
  method RateLoop(m: Meter, now: int) returns (r: real)
    ensures r == Rate(m, now)
  {
    if !m.started { return 0.0; }
    var cur := BucketOf(m.epoch, now);
    var covered := cur - (m.first + 1);
    if covered > WINDOW { covered := WINDOW; }
    if covered <= 0 { return 0.0; }
    var total := 0;
    for s := 0 to RING_SIZE
      invariant total == Total(m.slots, cur - covered, cur, s)
    {
      if m.slots[s].idx < cur && m.slots[s].idx >= cur - covered { total := total + m.slots[s].n; }
    }
    r := total as real / (covered as real * 0.1);
  }

  // ------------------------------------------------------------------ the plain history

  /** Tokens that were generated, with the bucket each fell in. */
  datatype Burst = Burst(idx: nat, n: int)

  function TokensAt(h: seq<Burst>, x: int): int {
    if h == [] then 0 else TokensAt(h[..|h| - 1], x) + if h[|h| - 1].idx == x then h[|h| - 1].n else 0
  }

  /** Tokens of the buckets lo .. hi - 1, straight from the history. */
  function TokensIn(h: seq<Burst>, lo: int, hi: int): int {
    if h == [] then 0 else TokensIn(h[..|h| - 1], lo, hi) + if lo <= h[|h| - 1].idx < hi then h[|h| - 1].n else 0
  }

  lemma {:induction false} TokensStep(h: seq<Burst>, lo: int, hi: int)
    requires lo < hi
    ensures TokensIn(h, lo, hi) == TokensIn(h, lo, hi - 1) + TokensAt(h, hi - 1)
  {
    if h != [] { TokensStep(h[..|h| - 1], lo, hi); }
  }

  lemma {:induction false} TokensNone(h: seq<Burst>, lo: int, hi: int)
    requires lo >= hi
    ensures TokensIn(h, lo, hi) == 0
  {
    if h != [] { TokensNone(h[..|h| - 1], lo, hi); }
  }

  lemma {:induction false} TokensBeyond(h: seq<Burst>, x: int)
    requires forall i :: 0 <= i < |h| ==> h[i].idx != x
    ensures TokensAt(h, x) == 0
  {
    if h != [] { TokensBeyond(h[..|h| - 1], x); }
  }

  // ------------------------------------------------------------------ the ring follows the history

  function Held(slots: Slots, x: nat): int { if slots[x % RING_SIZE].idx == x then slots[x % RING_SIZE].n else 0 }

  /** No place is ahead of the last token, and one that counts anything is where its bucket belongs. */
  ghost predicate Placed(slots: Slots, last: int) {
    forall s :: 0 <= s < RING_SIZE ==> 0 <= slots[s].idx <= last && (slots[s].n == 0 || slots[s].idx % RING_SIZE == s)
  }

  /** The ring has every bucket of the busy period that a reading can still cover. */
  ghost predicate Follows(m: Meter, h: seq<Burst>) {
    && m.started && Placed(m.slots, m.last) && 0 <= m.first <= m.last
    && (forall i :: 0 <= i < |h| ==> h[i].idx <= m.last)
    && (forall x: nat :: m.first <= x && m.last - RING_SIZE < x ==> Held(m.slots, x) == TokensAt(h, x))
  }

  lemma PutHeld(slots: Slots, idx: nat, n: int, x: nat)
    requires idx - RING_SIZE < x < idx + RING_SIZE
    ensures Held(Put(slots, idx, n), x) == Held(slots, x) + if x == idx then n else 0
  {
    if x % RING_SIZE == idx % RING_SIZE { assert x == idx; }
  }

  lemma PutPlaced(slots: Slots, idx: nat, n: int)
    requires Placed(slots, idx)
    ensures Placed(Put(slots, idx, n), idx)
  {
  }

  lemma TokensAppend(h: seq<Burst>, b: Burst, x: int)
    ensures TokensAt(h + [b], x) == TokensAt(h, x) + if b.idx == x then b.n else 0
  {
    assert (h + [b])[..|h|] == h;
  }

  /** The history the meter has seen, and what is true before the first token. */
  ghost predicate Metered(m: Meter, h: seq<Burst>) { if m.started then Follows(m, h) else m == Fresh && h == [] }

  /** Recording on a clock that has not gone back keeps the ring with the history. */
  lemma RecordFollows(m: Meter, h: seq<Burst>, now: int, n: int)
    requires Metered(m, h) && (m.started ==> BucketOf(m.epoch, now) >= m.last)
    ensures var m' := Record(m, now, n); Follows(m', h + [Burst(m'.last, n)])
  {
    var m' := Record(m, now, n);
    var idx := m'.last;
    var h' := h + [Burst(idx, n)];
    var restart := !m.started || idx - m.last > WINDOW;
    var from := if restart then Cleared else m.slots;
    PutPlaced(from, idx, n);
    forall x: nat | m'.first <= x && m'.last - RING_SIZE < x ensures Held(m'.slots, x) == TokensAt(h', x) {
      TokensAppend(h, Burst(idx, n), x);
      if x > idx {
        assert m'.slots[x % RING_SIZE].idx <= idx;
        TokensBeyond(h', x);
      } else {
        PutHeld(from, idx, n, x);
        if restart { TokensBeyond(h, x); }
      }
    }
  }

  // ------------------------------------------------------------------ the reading is exact

  /** What the first k places hold for one bucket. */
  lemma {:induction false} TotalStep(slots: Slots, last: int, lo: int, hi: int, k: nat)
    requires Placed(slots, last) && 0 <= lo < hi && k <= RING_SIZE
    ensures Total(slots, lo, hi, k) == Total(slots, lo, hi - 1, k) + if (hi - 1) % RING_SIZE < k
        then Held(slots, hi - 1) else 0
  {
    if k > 0 { TotalStep(slots, last, lo, hi, k - 1); }
  }

  lemma {:induction false} TotalNone(slots: Slots, lo: int, k: nat)
    requires k <= RING_SIZE
    ensures Total(slots, lo, lo, k) == 0
  {
    if k > 0 { TotalNone(slots, lo, k - 1); }
  }

  lemma {:induction false} TotalIsTokens(m: Meter, h: seq<Burst>, lo: nat, hi: int)
    requires Follows(m, h) && m.first <= lo <= hi && m.last - RING_SIZE < lo
    ensures Total(m.slots, lo, hi, RING_SIZE) == TokensIn(h, lo, hi)
    decreases hi - lo
  {
    if lo == hi {
      TotalNone(m.slots, lo, RING_SIZE);
      TokensNone(h, lo, hi);
    } else {
      TotalIsTokens(m, h, lo, hi - 1);
      TotalStep(m.slots, m.last, lo, hi, RING_SIZE);
      TokensStep(h, lo, hi);
    }
  }

  /** A reading is the tokens of the complete buckets it covers, over the time they span: up to the last fifty before
      the current one, and none before the first full one of the busy period. */
  lemma RateIsExact(m: Meter, h: seq<Burst>, now: int)
    requires Follows(m, h) && BucketOf(m.epoch, now) >= m.last
    ensures var cur := BucketOf(m.epoch, now); var covered := Min(cur - m.first - 1, WINDOW);
            Rate(m, now) == if covered <= 0 then 0.0
                else TokensIn(h, cur - covered, cur) as real / (covered as real * 0.1)
  {
    var cur, covered := BucketOf(m.epoch, now), Covered(m, now);
    if covered > 0 { TotalIsTokens(m, h, cur - covered, cur); }
  }

  // ------------------------------------------------------------------ runs

  /** Tokens generated over time. */
  datatype Tick = Tick(now: int, n: int)

  function After(ticks: seq<Tick>): Meter {
    if ticks == [] then Fresh else Record(After(ticks[..|ticks| - 1]), ticks[|ticks| - 1].now, ticks[|ticks| - 1].n)
  }

  function Bursts(ticks: seq<Tick>): seq<Burst> {
    if ticks == [] then []
    else Bursts(ticks[..|ticks| - 1]) + [Burst(BucketOf(ticks[0].now, ticks[|ticks| - 1].now), ticks[|ticks| - 1].n)]
  }

  ghost predicate Timed(ticks: seq<Tick>) { forall i, j :: 0 <= i < j < |ticks| ==> ticks[i].now <= ticks[j].now }

  lemma BucketsAdvance(epoch: int, a: int, b: int)
    requires a <= b
    ensures BucketOf(epoch, a) <= BucketOf(epoch, b)
  {
  }

  lemma {:induction false} RunFollows(ticks: seq<Tick>)
    requires Timed(ticks)
    ensures Metered(After(ticks), Bursts(ticks)) && After(ticks).started == (ticks != [])
    ensures ticks != [] ==> After(ticks).epoch == ticks[0].now
                            && After(ticks).last == BucketOf(ticks[0].now, ticks[|ticks| - 1].now)
  {
    if ticks != [] {
      var init, t := ticks[..|ticks| - 1], ticks[|ticks| - 1];
      RunFollows(init);
      if init != [] { BucketsAdvance(ticks[0].now, init[|init| - 1].now, t.now); }
      RecordFollows(After(init), Bursts(init), t.now, t.n);
    }
  }

  function BucketAt(ticks: seq<Tick>, i: nat): nat
    requires i < |ticks|
  {
    BucketOf(ticks[0].now, ticks[i].now)
  }

  /** Tokens i come after a gap longer than the window, or are the first. */
  predicate Opens(ticks: seq<Tick>, i: nat)
    requires i < |ticks|
  {
    i == 0 || BucketAt(ticks, i) - BucketAt(ticks, i - 1) > WINDOW
  }

  /** The busy period that is under way began with tokens k. */
  ghost predicate BusySince(ticks: seq<Tick>, k: nat) {
    k < |ticks| && Opens(ticks, k) && forall i :: k < i < |ticks| ==> !Opens(ticks, i)
  }

  lemma {:induction false} BusySinceSome(ticks: seq<Tick>, n: nat) returns (k: nat)
    requires n < |ticks| && forall i :: n < i < |ticks| ==> !Opens(ticks, i)
    ensures BusySince(ticks, k)
  {
    if Opens(ticks, n) { k := n; } else { k := BusySinceSome(ticks, n - 1); }
  }

  /** The meter's own mark is the bucket in which that period began. */
  lemma {:induction false} FirstIsBusySince(ticks: seq<Tick>, k: nat)
    requires Timed(ticks) && BusySince(ticks, k)
    ensures After(ticks).first == BucketAt(ticks, k)
  {
    var init, n := ticks[..|ticks| - 1], |ticks| - 1;
    RunFollows(init);
    RunFollows(ticks);
    if k < n {
      BusyBefore(ticks, k);
      FirstIsBusySince(init, k);
    }
  }

  lemma BusyBefore(ticks: seq<Tick>, k: nat)
    requires BusySince(ticks, k) && k < |ticks| - 1
    ensures var init := ticks[..|ticks| - 1]; BusySince(init, k) && BucketAt(init, k) == BucketAt(ticks, k)
                                              && !Opens(ticks, |ticks| - 1)
  {
    var init := ticks[..|ticks| - 1];
    forall i | 0 <= i < |init| ensures Opens(init, i) == Opens(ticks, i) {}
  }

  /** In every run on a clock that does not go back, a later reading is exact: the tokens of the complete buckets
      since the one in which the busy period began, at most the window, over their time. */
  lemma {:induction false} RateIsExactInEveryRun(ticks: seq<Tick>, k: nat, now: int)
    requires Timed(ticks) && BusySince(ticks, k) && ticks[|ticks| - 1].now <= now
    ensures var cur := BucketOf(ticks[0].now, now); var covered := Min(cur - BucketAt(ticks, k) - 1, WINDOW);
            Rate(After(ticks), now) == if covered <= 0 then 0.0
                else TokensIn(Bursts(ticks), cur - covered, cur) as real / (covered as real * 0.1)
  {
    FirstIsBusySince(ticks, k);
    RunFollows(ticks);
    BucketsAdvance(ticks[0].now, ticks[|ticks| - 1].now, now);
    RateIsExact(After(ticks), Bursts(ticks), now);
  }
}
