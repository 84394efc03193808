/** The sliding window of whole-second buckets (internal/resilience/doc.go): a ring that never grows and still agrees
    with the plain history. Times are nanoseconds since the epoch. */
module Window {
  import opened Prelude

  const BUCKET_WIDTH := 1_000_000_000

  function BucketOf(t: int): int { t / BUCKET_WIDTH }

  /** One place of the ring: the bucket it holds and that bucket's two counters. */
  datatype Cell = Cell(stamp: int, a: int, b: int)

  type Ring = r: seq<Cell> | |r| > 0 witness [Cell(0, 0, 0)]

  function Places(window: int): nat { Max((window + BUCKET_WIDTH - 1) / BUCKET_WIDTH, 1) }

  function Fresh(n: nat): Ring
    requires n > 0
  {
    seq(n, _ => Cell(0, 0, 0))
  }

  function Slot(n: nat, bucket: int): nat
    requires n > 0
  {
    ((bucket % n) + n) % n
  }

  /** Add to one counter (a when `first`, else b), never below zero. */
  function Bump(c: Cell, first: bool, delta: int): Cell {
    if first then c.(a := Max(c.a + delta, 0)) else c.(b := Max(c.b + delta, 0))
  }

  /** Add to the bucket of time t; a bucket outside the window is ignored. */
  function Add(w: Ring, t: int, now: int, first: bool, delta: int): Ring {
    var idx, cur := BucketOf(t), BucketOf(now);
    if idx <= cur - |w| || idx > cur then w
    else
      var s := Slot(|w|, idx);
      w[s := Bump(if w[s].stamp == idx then w[s] else Cell(idx, 0, 0), first, delta)]
  }

  predicate Inside(c: Cell, n: nat, cur: int) { cur - n < c.stamp <= cur }

  /** Both counters over the first k places. */
  function SumPlaces(w: Ring, cur: int, k: nat): (int, int)
    requires k <= |w|
  {
    if k == 0 then (0, 0)
    else
      var (a, b) := SumPlaces(w, cur, k - 1);
      if Inside(w[k - 1], |w|, cur) then (a + w[k - 1].a, b + w[k - 1].b) else (a, b)
  }

  function Sum(w: Ring, now: int): (int, int) { SumPlaces(w, BucketOf(now), |w|) }

  // ------------------------------------------------------------------ the ring follows the history

  /** The plain history: how often each bucket was counted. */
  type Counts = int -> int

  function RangeSum(f: Counts, lo: int, hi: int): int
    decreases hi - lo
  {
    if lo >= hi then 0 else RangeSum(f, lo, hi - 1) + f(hi - 1)
  }

  lemma {:induction false} RangeSplit(f: Counts, lo: int, mid: int, hi: int)
    requires lo <= mid <= hi
    ensures RangeSum(f, lo, hi) == RangeSum(f, lo, mid) + RangeSum(f, mid, hi)
    decreases hi - lo
  {
    if mid < hi { RangeSplit(f, lo, mid, hi - 1); }
  }

  lemma SlotFacts(n: nat, x: int)
    requires n > 0
    ensures Slot(n, x) == x % n < n
  {
  }

  /** Buckets of one window have places of their own. */
  lemma SlotsApart(n: nat, x: int, y: int)
    requires n > 0 && Slot(n, x) == Slot(n, y) && x - y < n && y - x < n
    ensures x == y
  {
    SlotFacts(n, x);
    SlotFacts(n, y);
    var d := x / n - y / n;
    assert x - y == n * d;
  }

  /** What the ring holds for a bucket. */
  function Held(w: Ring, bucket: int, first: bool): int {
    var c := w[Slot(|w|, bucket)];
    if c.stamp != bucket then 0 else if first then c.a else c.b
  }

  /** No place is ahead of the clock; a place with a count is where its bucket belongs. */
  ghost predicate Placed(w: Ring, cur: int) {
    forall s :: 0 <= s < |w| ==> w[s].stamp <= cur && (w[s].a == w[s].b == 0 || Slot(|w|, w[s].stamp) == s)
  }

  /** The ring agrees with the history on every bucket of the window that ends at `cur`. */
  ghost predicate Tracks(w: Ring, cur: int, f: Counts, g: Counts) {
    && Placed(w, cur)
    && (forall x :: cur - |w| < x <= cur ==> Held(w, x, true) == f(x) && Held(w, x, false) == g(x))
    && (forall x :: x > cur ==> f(x) == 0 && g(x) == 0)
  }

  /** Time passing only takes buckets out of the window. */
  lemma TracksLater(w: Ring, cur: int, later: int, f: Counts, g: Counts)
    requires Tracks(w, cur, f, g) && cur <= later
    ensures Tracks(w, later, f, g)
  {
    forall x | later - |w| < x <= later ensures Held(w, x, true) == f(x) && Held(w, x, false) == g(x) {
      if x > cur { assert w[Slot(|w|, x)].stamp <= cur; }
    }
  }

  /** The history after one more event. */
  ghost predicate Bumped(f: Counts, g: Counts, bucket: int, delta: int) {
    forall x :: g(x) == if x == bucket then Max(f(x) + delta, 0) else f(x)
  }

  lemma AddTracks(w: Ring, t: int, now: int, first: bool, delta: int, f: Counts, g: Counts, f': Counts, g': Counts)
    requires Tracks(w, BucketOf(now), f, g) && BucketOf(now) - |w| < BucketOf(t) <= BucketOf(now)
    requires if first then Bumped(f, f', BucketOf(t), delta) && g' == g else Bumped(g, g', BucketOf(t), delta)
                                                                             && f' == f
    ensures Tracks(Add(w, t, now, first, delta), BucketOf(now), f', g')
  {
    var idx, cur, w' := BucketOf(t), BucketOf(now), Add(w, t, now, first, delta);
    SlotFacts(|w|, idx);
    assert Held(w, idx, true) == f(idx) && Held(w, idx, false) == g(idx);
    forall x | cur - |w| < x <= cur ensures Held(w', x, true) == f'(x) && Held(w', x, false) == g'(x) {
      assert Held(w, x, true) == f(x) && Held(w, x, false) == g(x);
      if Slot(|w|, x) == Slot(|w|, idx) { SlotsApart(|w|, x, idx); }
    }
  }

  /** An event outside the window changes neither side's account of the window. */
  lemma AddOutside(w: Ring, t: int, now: int, first: bool, delta: int, f: Counts, g: Counts, f': Counts, g': Counts)
    requires Tracks(w, BucketOf(now), f, g) && BucketOf(t) <= BucketOf(now) - |w|
    requires forall x :: x != BucketOf(t) ==> f'(x) == f(x) && g'(x) == g(x)
    ensures Add(w, t, now, first, delta) == w && Tracks(w, BucketOf(now), f', g')
  {
  }

  lemma FreshTracks(n: nat, cur: int, f: Counts, g: Counts)
    requires n > 0 && 0 <= cur && forall x :: f(x) == 0 && g(x) == 0
    ensures Tracks(Fresh(n), cur, f, g)
  {
  }

  // ------------------------------------------------------------------ the sum is the plain count

  /** The bucket of the current window whose place is s. */
  function At(n: nat, cur: int, s: nat): int
    requires s < n
  {
    if s <= cur % n then cur - cur % n + s else cur - cur % n - n + s
  }

  lemma AtFacts(n: nat, cur: int, s: nat)
    requires s < n
    ensures cur - n < At(n, cur, s) <= cur && Slot(n, At(n, cur, s)) == s
  {
    var r, x := cur % n, At(n, cur, s);
    var q := if s <= r then cur / n else cur / n - 1;
    assert x == n * q + s;
    SlotFacts(n, x);
    ModOf(n, q, s, x);
  }

  lemma ModOf(n: nat, q: int, s: nat, x: int)
    requires s < n && x == n * q + s
    ensures x % n == s
  {
    var d := x / n - q;
    var p := n * (x / n);
    assert x == p + x % n;
    assert n * d == s - x % n;
  }

  /** A place contributes what the history has for its bucket. */
  lemma PlaceCounts(w: Ring, cur: int, f: Counts, g: Counts, s: nat)
    requires Tracks(w, cur, f, g) && s < |w|
    ensures var x := At(|w|, cur, s);
            if Inside(w[s], |w|, cur) then w[s].a == f(x) && w[s].b == g(x) else f(x) == 0 && g(x) == 0
  {
    var x := At(|w|, cur, s);
    AtFacts(|w|, cur, s);
    assert Held(w, x, true) == f(x) && Held(w, x, false) == g(x);
    if Inside(w[s], |w|, cur) && Slot(|w|, w[s].stamp) == s { SlotsApart(|w|, w[s].stamp, x); }
  }

  /** The history over the buckets of the first k places: the places up to the current one, then those before it. */
  function Segment(f: Counts, n: nat, cur: int, k: nat): int
    requires k <= n && n > 0
  {
    var r := cur % n;
    if k <= r + 1 then RangeSum(f, cur - r, cur - r + k)
        else RangeSum(f, cur - r, cur + 1) + RangeSum(f, cur - n + 1, cur - r - n + k)
  }

  lemma SegmentStep(f: Counts, n: nat, cur: int, k: nat)
    requires 0 < k <= n
    ensures Segment(f, n, cur, k) == Segment(f, n, cur, k - 1) + f(At(n, cur, k - 1))
  {
  }

  lemma {:induction false} PlacesSum(w: Ring, cur: int, f: Counts, g: Counts, k: nat)
    requires Tracks(w, cur, f, g) && k <= |w|
    ensures SumPlaces(w, cur, k) == (Segment(f, |w|, cur, k), Segment(g, |w|, cur, k))
  {
    if k > 0 {
      PlacesSum(w, cur, f, g, k - 1);
      PlaceCounts(w, cur, f, g, k - 1);
      SegmentStep(f, |w|, cur, k);
      SegmentStep(g, |w|, cur, k);
    }
  }

  lemma SegmentWhole(f: Counts, n: nat, cur: int)
    requires n > 0
    ensures Segment(f, n, cur, n) == RangeSum(f, cur - n + 1, cur + 1)
  {
    RangeSplit(f, cur - n + 1, cur - cur % n, cur + 1);
  }

  /** The ring's sum is the plain count over the last n buckets. */
  lemma SumIsCount(w: Ring, now: int, f: Counts, g: Counts)
    requires Tracks(w, BucketOf(now), f, g)
    ensures var cur := BucketOf(now);
            Sum(w, now) == (RangeSum(f, cur - |w| + 1, cur + 1), RangeSum(g, cur - |w| + 1, cur + 1))
  {
    var cur := BucketOf(now);
    PlacesSum(w, cur, f, g, |w|);
    SegmentWhole(f, |w|, cur);
    SegmentWhole(g, |w|, cur);
  }

  // ------------------------------------------------------------------ the implementation

  class SlidingWindow {
    const n: nat
    const stamp: array<int>
    const vals: array2<int>

    ghost predicate Valid()
      reads this
    {
      n > 0 && stamp.Length == n && vals.Length0 == n && vals.Length1 == 2
    }

    ghost function View(): Ring
      requires Valid()
      reads this, stamp, vals
    {
      seq(n, i requires 0 <= i < n && Valid() reads this, stamp, vals => Cell(stamp[i], vals[i, 0], vals[i, 1]))
    }

    constructor (window: int)
      ensures Valid() && n == Places(window) && View() == Fresh(Places(window)) && fresh(stamp) && fresh(vals)
    {
      var k := (window + BUCKET_WIDTH - 1) / BUCKET_WIDTH;
      if k < 1 { k := 1; }
      n := k;
      stamp := new int[k](_ => 0);
      vals := new int[k, 2]((_, _) => 0);
    }

    method Count(t: int, now: int, which: nat, delta: int)
      requires Valid() && which < 2
      modifies stamp, vals
      ensures View() == Add(old(View()), t, now, which == 0, delta)
    {
      var idx, cur := BucketOf(t), BucketOf(now);
      if idx <= cur - n || idx > cur { return; }
      var s := ((idx % n) + n) % n;
      if stamp[s] != idx {
        stamp[s] := idx;
        vals[s, 0], vals[s, 1] := 0, 0;
      }
      vals[s, which] := vals[s, which] + delta;
      if vals[s, which] < 0 { vals[s, which] := 0; }
    }

    method Total(now: int) returns (a: int, b: int)
      requires Valid()
      ensures (a, b) == Sum(View(), now)
    {
      var cur := BucketOf(now);
      a, b := 0, 0;
      for s := 0 to n
        invariant (a, b) == SumPlaces(View(), cur, s)
      {
        assert View()[s] == Cell(stamp[s], vals[s, 0], vals[s, 1]);
        if stamp[s] > cur - n && stamp[s] <= cur { a, b := a + vals[s, 0], b + vals[s, 1]; }
      }
    }

    method Reset()
      requires Valid()
      modifies stamp, vals
      ensures View() == Fresh(n)
    {
      for i := 0 to n
        invariant forall j :: 0 <= j < i ==> stamp[j] == vals[j, 0] == vals[j, 1] == 0
      {
        stamp[i] := 0;
        vals[i, 0], vals[i, 1] := 0, 0;
      }
    }
  }
}
