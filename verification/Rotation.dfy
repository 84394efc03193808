/** Going round a changing set, for any strict total order (internal/scheduler/scheduler.go, the rotor). */
module Rotation {

  ghost predicate StrictOrder<T(!new)>(lt: (T, T) -> bool) {
    && (forall x :: !lt(x, x))
    && (forall x, y :: x != y ==> lt(x, y) || lt(y, x))
    && (forall x, y, z :: lt(x, y) && lt(y, z) ==> lt(x, z))
  }

  /** In increasing order, no two alike. */
  ghost predicate Sorted<T(!new)>(lt: (T, T) -> bool, ids: seq<T>) {
    forall i, j :: 0 <= i < j < |ids| ==> lt(ids[i], ids[j])
  }

  /** In order, possibly with repetitions. */
  ghost predicate InOrder<T(!new)>(lt: (T, T) -> bool, ids: seq<T>) {
    forall i, j :: 0 <= i < j < |ids| ==> !lt(ids[j], ids[i])
  }

  /** The first ID after `last`, wrapping around. */
  ghost predicate IsNext<T(!new)>(lt: (T, T) -> bool, ids: seq<T>, last: T, k: nat) {
    && k < |ids|
    && if exists i :: 0 <= i < |ids| && lt(last, ids[i])
       then lt(last, ids[k]) && forall i :: 0 <= i < k ==> !lt(last, ids[i])
       else k == 0
  }

  ghost predicate Picks<T(!new)>(lt: (T, T) -> bool, ids: seq<T>, last: T, choice: T) {
    exists k: nat :: IsNext(lt, ids, last, k) && ids[k] == choice
  }

  function Before<T>(start: T, out: seq<T>, t: nat): T
    requires t <= |out|
  {
    if t == 0 then start else out[t - 1]
  }

  /** A run: at time t it is offered `sets[t]` and hands out `out[t]`. */
  ghost predicate Rotates<T(!new)>(lt: (T, T) -> bool, sets: seq<seq<T>>, start: T, out: seq<T>) {
    && |out| == |sets|
    && forall t {:trigger sets[t]} :: 0 <= t < |sets| ==> InOrder(lt, sets[t])
                                                          && Picks(lt, sets[t], Before(start, out, t), out[t])
  }

  /** `y` comes after `x` on the way round that starts and ends at `w`. */
  ghost predicate Ahead<T(!new)>(lt: (T, T) -> bool, w: T, x: T, y: T) {
    if lt(x, w) == lt(y, w) then lt(x, y) else lt(y, w)
  }

  /** While `w` is on offer and not taken, each choice is strictly further round than the one before. */
  lemma PickIsAhead<T(!new)>(lt: (T, T) -> bool, ids: seq<T>, w: T, x: T, y: T)
    requires StrictOrder(lt) && InOrder(lt, ids) && w in ids && Picks(lt, ids, x, y) && y != w
    ensures Ahead(lt, w, x, y)
  {
    var k: nat :| IsNext(lt, ids, x, k) && ids[k] == y;
    var i :| 0 <= i < |ids| && ids[i] == w;
    if lt(x, w) {
      assert k < i;
    } else if exists j :: 0 <= j < |ids| && lt(x, ids[j]) {
      assert x == w || lt(w, x);
    } else {
      assert ids[0] == w || lt(ids[0], ids[i]);
    }
  }

  lemma {:induction false} RotationAhead<T(!new)>(lt: (T, T) -> bool, sets: seq<seq<T>>, start: T, out: seq<T>, w: T,
      i: nat, j: nat)
    requires StrictOrder(lt) && Rotates(lt, sets, start, out) && i < j < |out|
    requires forall t :: i < t <= j ==> w in sets[t] && out[t] != w
    ensures Ahead(lt, w, out[i], out[j])
    decreases j
  {
    assert Picks(lt, sets[j], Before(start, out, j), out[j]);
    PickIsAhead(lt, sets[j], w, out[j - 1], out[j]);
    if i < j - 1 { RotationAhead(lt, sets, start, out, w, i, j - 1); }
  }

  /** Fairness under churn: between two consecutive choices of a worker that is always on offer, nobody is chosen
      twice, whatever joins or leaves. */
  lemma NobodyTwice<T(!new)>(lt: (T, T) -> bool, sets: seq<seq<T>>, start: T, out: seq<T>, w: T, a: nat, b: nat)
    requires StrictOrder(lt) && Rotates(lt, sets, start, out) && a < b < |out| && out[a] == w && out[b] == w
    requires forall t :: a < t < b ==> out[t] != w && w in sets[t]
    ensures forall i, j :: a < i < j < b ==> out[i] != out[j]
  {
    forall i, j | a < i < j < b ensures out[i] != out[j] { RotationAhead(lt, sets, start, out, w, i, j); }
  }

  lemma PickInFixedSet<T(!new)>(lt: (T, T) -> bool, ids: seq<T>, p: nat, y: T)
    requires StrictOrder(lt) && Sorted(lt, ids) && p < |ids| && Picks(lt, ids, ids[p], y)
    ensures y == ids[if p + 1 < |ids| then p + 1 else 0]
  {
    forall i | 0 <= i <= p ensures !lt(ids[p], ids[i]) { if i < p { assert lt(ids[i], ids[p]); } }
    if p + 1 < |ids| { assert lt(ids[p], ids[p + 1]); }
  }

  function Round(n: nat, p: nat, t: nat): nat { if p + t < n then p + t else p + t - n }

  /** Over a fixed set the choices go round. */
  lemma {:induction false} GoesRound<T(!new)>(lt: (T, T) -> bool, ids: seq<T>, sets: seq<seq<T>>, start: T, out: seq<T>,
      p: nat, t: nat)
    requires StrictOrder(lt) && Sorted(lt, ids) && Rotates(lt, sets, start, out)
        && (forall i :: 0 <= i < |sets| ==> sets[i] == ids)
    requires p < |ids| && t < |out| <= |ids| && out[0] == ids[p]
    ensures out[t] == ids[Round(|ids|, p, t)]
  {
    if t > 0 {
      GoesRound(lt, ids, sets, start, out, p, t - 1);
      GoesOn(lt, ids, sets, start, out, Round(|ids|, p, t - 1), t);
    }
  }

  lemma GoesOn<T(!new)>(lt: (T, T) -> bool, ids: seq<T>, sets: seq<seq<T>>, start: T, out: seq<T>, q: nat, t: nat)
    requires StrictOrder(lt) && Sorted(lt, ids) && Rotates(lt, sets, start, out) && 0 < t < |out| && sets[t] == ids
        && q < |ids| && out[t - 1] == ids[q]
    ensures out[t] == ids[if q + 1 < |ids| then q + 1 else 0]
  {
    assert Picks(lt, sets[t], Before(start, out, t), out[t]);
    PickInFixedSet(lt, ids, q, out[t]);
  }

  /** Over a fixed set of n workers, any n consecutive choices take every worker exactly once. */
  lemma OneRoundTakesEveryone<T(!new)>(lt: (T, T) -> bool, ids: seq<T>, sets: seq<seq<T>>, start: T, out: seq<T>)
    requires StrictOrder(lt) && Sorted(lt, ids) && Rotates(lt, sets, start, out)
    requires ids != [] && |sets| == |ids| && forall i :: 0 <= i < |sets| ==> sets[i] == ids
    ensures multiset(out) == multiset(ids)
  {
    assert Picks(lt, sets[0], Before(start, out, 0), out[0]);
    var p: nat :| p < |ids| && ids[p] == out[0];
    forall t | 0 <= t < |out| ensures out[t] == ids[Round(|ids|, p, t)] { GoesRound(lt, ids, sets, start, out, p, t); }
    Rotated(ids, out, p);
  }

  lemma Rotated<T>(ids: seq<T>, out: seq<T>, p: nat)
    requires p < |ids| == |out| && forall t :: 0 <= t < |out| ==> out[t] == ids[Round(|ids|, p, t)]
    ensures multiset(out) == multiset(ids)
  {
    assert out == ids[p..] + ids[..p];
    assert ids == ids[..p] + ids[p..];
  }
}
