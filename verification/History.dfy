/** Plain histories of counted events, and their counts bucket by bucket and over a range of buckets. */
module History {
  import opened Prelude
  import opened Window

  /** Which bucket an event counts in, if it counts at all. */
  function CountAt<E>(es: seq<E>, bucketOf: E -> Option<int>, bucket: int): nat {
    if es == [] then 0 else CountAt(es[..|es| - 1], bucketOf, bucket) + if bucketOf(es[|es| - 1]) == Some(bucket) then 1
        else 0
  }

  predicate Within(bucketOf: Option<int>, lo: int, hi: int) { bucketOf.Some? && lo <= bucketOf.value < hi }

  /** Events in the buckets lo .. hi - 1, counted straight from the history. */
  function CountIn<E>(es: seq<E>, bucketOf: E -> Option<int>, lo: int, hi: int): nat {
    if es == [] then 0 else CountIn(es[..|es| - 1], bucketOf, lo, hi) + if Within(bucketOf(es[|es| - 1]), lo, hi) then 1
        else 0
  }

  function Counter<E>(es: seq<E>, bucketOf: E -> Option<int>): Counts { x => CountAt(es, bucketOf, x) }

  lemma {:induction false} RangePointwise(f: Counts, g: Counts, lo: int, hi: int, b: int, d: int)
    requires forall x :: g(x) == f(x) + if x == b then d else 0
    ensures RangeSum(g, lo, hi) == RangeSum(f, lo, hi) + if lo <= b < hi then d else 0
    decreases hi - lo
  {
    if lo < hi { RangePointwise(f, g, lo, hi - 1, b, d); }
  }

  lemma {:induction false} RangeZero(f: Counts, lo: int, hi: int)
    requires forall x :: f(x) == 0
    ensures RangeSum(f, lo, hi) == 0
    decreases hi - lo
  {
    if lo < hi { RangeZero(f, lo, hi - 1); }
  }

  /** Bucket by bucket or straight from the history, the count is the same. */
  lemma {:induction false} CountsAgree<E>(es: seq<E>, bucketOf: E -> Option<int>, lo: int, hi: int)
    ensures RangeSum(Counter(es, bucketOf), lo, hi) == CountIn(es, bucketOf, lo, hi)
  {
    if es == [] {
      RangeZero(Counter(es, bucketOf), lo, hi);
    } else {
      var at, init := bucketOf(es[|es| - 1]), es[..|es| - 1];
      CountsAgree(init, bucketOf, lo, hi);
      RangePointwise(Counter(init, bucketOf), Counter(es, bucketOf), lo, hi, if at.Some? then at.value
          else 0, if at.Some? then 1 else 0);
    }
  }

  lemma CountAppend<E>(es: seq<E>, e: E, bucketOf: E -> Option<int>)
    ensures forall x :: CountAt(es + [e], bucketOf, x) == CountAt(es, bucketOf, x) + if bucketOf(e) == Some(x) then 1
        else 0
    ensures forall lo, hi :: CountIn(es + [e], bucketOf, lo, hi) == CountIn(es, bucketOf, lo, hi)
                             + if Within(bucketOf(e), lo, hi) then 1 else 0
  {
    assert (es + [e])[..|es|] == es;
  }

  /** Replacing one event moves one count. */
  lemma {:induction false} CountReplace<E>(es: seq<E>, i: nat, e: E, bucketOf: E -> Option<int>, x: int, lo: int,
      hi: int)
    requires i < |es|
    ensures CountAt(es[i := e], bucketOf, x)
         == CountAt(es, bucketOf, x) - (if bucketOf(es[i]) == Some(x) then 1 else 0) + if bucketOf(e) == Some(x) then 1
             else 0
    ensures CountIn(es[i := e], bucketOf, lo, hi)
         == CountIn(es, bucketOf, lo, hi) - (if Within(bucketOf(es[i]), lo, hi) then 1 else 0)
             + if Within(bucketOf(e), lo, hi) then 1 else 0
  {
    var init, es' := es[..|es| - 1], es[i := e];
    if i == |es| - 1 {
      assert es'[..|es| - 1] == init;
    } else {
      CountReplace(init, i, e, bucketOf, x, lo, hi);
      assert es'[..|es| - 1] == init[i := e];
    }
  }

  /** Events that none of which counts in a bucket. */
  lemma {:induction false} CountNone<E>(es: seq<E>, bucketOf: E -> Option<int>, x: int)
    requires forall i :: 0 <= i < |es| ==> bucketOf(es[i]) != Some(x)
    ensures CountAt(es, bucketOf, x) == 0
  {
    if es != [] { CountNone(es[..|es| - 1], bucketOf, x); }
  }

  /** Tracking depends only on the values of the counters. */
  lemma SameTracks(w: Ring, cur: int, f: Counts, g: Counts, f': Counts, g': Counts)
    requires Tracks(w, cur, f, g) && forall x :: f'(x) == f(x) && g'(x) == g(x)
    ensures Tracks(w, cur, f', g')
  {
  }
}
