/** Worker selection (internal/scheduler/scheduler.go): the eligibility filter, the rotor that remembers the last
    worker handed out per model, and the least-loaded choice. */
module Scheduler {
  import opened Rotation

  // ------------------------------------------------------------------ worker IDs in byte order

  predicate Less(a: string, b: string) {
    if b == "" then false
    else if a == "" then true
    else a[0] < b[0] || (a[0] == b[0] && Less(a[1..], b[1..]))
  }

  lemma {:induction false} LessTotal(a: string, b: string)
    ensures a != b ==> Less(a, b) || Less(b, a)
    ensures !(Less(a, b) && Less(b, a)) && !Less(a, a)
  {
    if a != "" && b != "" && a[0] == b[0] {
      LessTotal(a[1..], b[1..]);
      if a[1..] == b[1..] { assert a == [a[0]] + a[1..] && b == [b[0]] + b[1..]; }
    }
    if a != "" { LessTotal(a[1..], a[1..]); }
  }

  lemma {:induction false} LessTransitive(a: string, b: string, c: string)
    requires Less(a, b) && Less(b, c)
    ensures Less(a, c)
  {
    if a != "" && a[0] == b[0] && b[0] == c[0] { LessTransitive(a[1..], b[1..], c[1..]); }
  }

  const BYTE_ORDER: (string, string) -> bool := (a, b) => Less(a, b)

  lemma ByteOrderIsStrict()
    ensures StrictOrder(BYTE_ORDER)
  {
    forall a, b ensures !BYTE_ORDER(a, a) && (a != b ==> BYTE_ORDER(a, b) || BYTE_ORDER(b, a)) { LessTotal(a, b); }
    forall a, b, c | BYTE_ORDER(a, b) && BYTE_ORDER(b, c) ensures BYTE_ORDER(a, c) { LessTransitive(a, b, c); }
  }

  lemma NotBelow(x: string, y: string, z: string)
    requires !Less(x, y) && !Less(y, z)
    ensures !Less(x, z)
  {
    LessTotal(y, z);
    if Less(x, z) && z != y { LessTransitive(x, z, y); }
  }

  /** In order by ID. */
  ghost predicate Ordered(ids: seq<string>) { forall i, j :: 0 <= i < j < |ids| ==> !Less(ids[j], ids[i]) }

  // ------------------------------------------------------------------ the rotor

  /** The worker handed out last for a model. */
  function LastIn(last: map<string, string>, model: string): string { if model in last then last[model] else "" }

  /** One call: for the model it is offered these IDs and answers position k. */
  datatype Call = Call(model: string, ids: seq<string>, k: nat)

  function Choice(c: Call): string { if c.k < |c.ids| then c.ids[c.k] else "" }

  /** What a call does to the memory. */
  ghost predicate Turn(last: map<string, string>, c: Call, after: map<string, string>) {
    IsNext(BYTE_ORDER, c.ids, LastIn(last, c.model), c.k) && after == last[c.model := Choice(c)]
  }

  class Rotor {
    var last: map<string, string>

    constructor ()
      ensures last == map[]
    {
      last := map[];
    }

    function LastOf(model: string): string
      reads this
    {
      LastIn(last, model)
    }

    /** Binary search for the first ID after the one handed out last, as sort.Search does it. */
    method Next(model: string, ids: seq<string>) returns (k: nat)
      requires Ordered(ids) && ids != []
      modifies this
      ensures Turn(old(last), Call(model, ids, k), last)
    {
      var from := LastOf(model);
      var lo, hi := 0, |ids|;
      while lo < hi
        invariant 0 <= lo <= hi <= |ids|
        invariant forall i :: 0 <= i < lo ==> !Less(from, ids[i])
        invariant forall i :: hi <= i < |ids| ==> Less(from, ids[i])
      {
        var mid := (lo + hi) / 2;
        if Less(from, ids[mid]) {
          forall i | mid < i < |ids| ensures Less(from, ids[i]) {
            if !Less(from, ids[i]) { NotBelow(from, ids[i], ids[mid]); }
          }
          hi := mid;
        } else {
          forall i | 0 <= i < mid ensures !Less(from, ids[i]) { NotBelow(from, ids[mid], ids[i]); }
          lo := mid + 1;
        }
      }
      k := if lo == |ids| then 0 else lo;
      last := last[model := ids[k]];
    }
  }

  // ------------------------------------------------------------------ runs of the rotor

  /** Calls for any models, one after the other; `lasts[i]` is the memory before call i. */
  ghost predicate RotorRun(calls: seq<Call>, lasts: seq<map<string, string>>) {
    |lasts| == |calls| + 1 && forall i :: 0 <= i < |calls| ==> TurnAt(calls, lasts, i)
  }

  ghost predicate TurnAt(calls: seq<Call>, lasts: seq<map<string, string>>, i: nat) {
    i < |calls| && i + 1 < |lasts| && Ordered(calls[i].ids) && Turn(lasts[i], calls[i], lasts[i + 1])
  }

  function OffersTo(calls: seq<Call>, model: string): seq<seq<string>> {
    if calls == [] then []
    else
      var c := calls[|calls| - 1];
      OffersTo(calls[..|calls| - 1], model) + if c.model == model then [c.ids] else []
  }

  function ChoicesFor(calls: seq<Call>, model: string): (out: seq<string>)
    ensures |out| == |OffersTo(calls, model)|
  {
    if calls == [] then []
    else
      var c := calls[|calls| - 1];
      ChoicesFor(calls[..|calls| - 1], model) + if c.model == model then [Choice(c)] else []
  }

  lemma RotatesMore(sets: seq<seq<string>>, start: string, out: seq<string>, ids: seq<string>, k: nat)
    requires Rotates(BYTE_ORDER, sets, start, out) && Ordered(ids)
        && IsNext(BYTE_ORDER, ids, Before(start, out, |out|), k)
    ensures Rotates(BYTE_ORDER, sets + [ids], start, out + [ids[k]])
  {
    var more, outs := sets + [ids], out + [ids[k]];
    forall t {:trigger more[t]} | 0 <= t < |more|
      ensures InOrder(BYTE_ORDER, more[t]) && Picks(BYTE_ORDER, more[t], Before(start, outs, t), outs[t])
    {
      if t < |sets| { assert more[t] == sets[t]; }
      assert Before(start, outs, t) == Before(start, out, t);
    }
  }

  /** Whatever calls for other models come in between, the rotor goes round what one model is offered, from the worker
      it handed out last. */
  lemma {:induction false} RotorRotates(calls: seq<Call>, lasts: seq<map<string, string>>, model: string)
    requires RotorRun(calls, lasts)
    ensures GoesRoundFor(calls, model, LastIn(lasts[0], model), LastIn(lasts[|calls|], model))
  {
    if calls != [] {
      var n := |calls| - 1;
      var init, before := calls[..n], lasts[..n + 1];
      RotorRunPrefix(calls, lasts, init, before);
      RotorRotates(init, before, model);
      assert TurnAt(calls, lasts, n);
      OneTurn(init, calls[n], lasts[n], lasts[n + 1], model, LastIn(lasts[0], model));
      assert calls == init + [calls[n]];
    }
  }

  /** The choices for a model go round its offers and end with this worker. */
  ghost predicate GoesRoundFor(calls: seq<Call>, model: string, start: string, end: string) {
    var out := ChoicesFor(calls, model);
    Rotates(BYTE_ORDER, OffersTo(calls, model), start, out) && end == Before(start, out, |out|)
  }

  lemma OneTurn(init: seq<Call>, c: Call, last: map<string, string>, after: map<string, string>, model: string,
      start: string)
    requires GoesRoundFor(init, model, start, LastIn(last, model)) && Ordered(c.ids) && Turn(last, c, after)
    ensures GoesRoundFor(init + [c], model, start, LastIn(after, model))
  {
    assert (init + [c])[..|init|] == init;
    if c.model == model { RotatesMore(OffersTo(init, model), start, ChoicesFor(init, model), c.ids, c.k); }
  }

  lemma RotorRunPrefix(calls: seq<Call>, lasts: seq<map<string, string>>, init: seq<Call>, before: seq<map<string,
      string>>)
    requires RotorRun(calls, lasts) && calls != [] && init == calls[..|calls| - 1] && before == lasts[..|calls|]
    ensures RotorRun(init, before)
  {
    forall i | 0 <= i < |init| ensures TurnAt(init, before, i) { assert TurnAt(calls, lasts, i); }
  }

  /** So, of the workers offered for a model, nobody is handed out twice between two turns of one that is always on
      offer. */
  lemma RotorIsFair(calls: seq<Call>, lasts: seq<map<string, string>>, model: string, w: string, a: nat, b: nat)
    requires RotorRun(calls, lasts)
    requires var sets, out := OffersTo(calls, model), ChoicesFor(calls, model);
             a < b < |out| && out[a] == w && out[b] == w && forall t :: a < t < b ==> out[t] != w && w in sets[t]
    ensures var out := ChoicesFor(calls, model); forall i, j :: a < i < j < b ==> out[i] != out[j]
  {
    RotorRotates(calls, lasts, model);
    ByteOrderIsStrict();
    NobodyTwice(BYTE_ORDER, OffersTo(calls, model), LastIn(lasts[0], model), ChoicesFor(calls, model), w, a, b);
  }

  /** And while the same n workers are offered for a model, n turns take each of them exactly once. */
  lemma RotorTakesEveryone(calls: seq<Call>, lasts: seq<map<string, string>>, model: string, ids: seq<string>)
    requires RotorRun(calls, lasts) && ids != [] && Sorted(BYTE_ORDER, ids)
    requires var sets := OffersTo(calls, model); |sets| == |ids| && forall i :: 0 <= i < |sets| ==> sets[i] == ids
    ensures multiset(ChoicesFor(calls, model)) == multiset(ids)
  {
    RotorRotates(calls, lasts, model);
    ByteOrderIsStrict();
    OneRoundTakesEveryone(BYTE_ORDER, ids, OffersTo(calls, model), LastIn(lasts[0], model), ChoicesFor(calls, model));
  }

  // ------------------------------------------------------------------ the filter

  datatype Snapshot = Snapshot(id: string, registered: int, model: string, ready: bool, eligible: bool, healthy: bool,
                               active: int, queueDepth: int, maxConcurrency: int)

  /** Why nothing was selected: workers that serve the model, those the registry offers, and those of them that are
      full. */
  datatype NoWorker = NoWorker(serving: nat, eligible: nat, atCapacity: nat)

  predicate Schedulable(w: Snapshot) { w.ready && w.eligible && w.healthy }

  predicate Serves(model: string, w: Snapshot) { w.model == model }

  predicate Offered(model: string, w: Snapshot) { w.model == model && Schedulable(w) }

  predicate Full(model: string, w: Snapshot) { Offered(model, w) && w.active >= w.maxConcurrency }

  predicate Candidate(model: string, w: Snapshot) { Offered(model, w) && w.active < w.maxConcurrency }

  /** The workers that satisfy `f`, in their order. */
  function Where(ws: seq<Snapshot>, f: Snapshot -> bool): seq<Snapshot> {
    if ws == [] then [] else Where(ws[..|ws| - 1], f) + if f(ws[|ws| - 1]) then [ws[|ws| - 1]] else []
  }

  function Ids(ws: seq<Snapshot>): (r: seq<string>)
    ensures |r| == |ws| && forall i :: 0 <= i < |ws| ==> r[i] == ws[i].id
  {
    seq(|ws|, i requires 0 <= i < |ws| => ws[i].id)
  }

  lemma InsertOrdered(ws: seq<Snapshot>, x: Snapshot, k: nat)
    requires Ordered(Ids(ws)) && k <= |ws|
    requires (forall j :: k <= j < |ws| ==> Less(x.id, ws[j].id)) && (k > 0 ==> !Less(x.id, ws[k - 1].id))
    ensures Ordered(Ids(ws[..k] + [x] + ws[k..]))
  {
    var out := ws[..k] + [x] + ws[k..];
    forall i, j | 0 <= i < j < |out| ensures !Less(out[j].id, out[i].id) {
      if j == k {
        if i < k - 1 { assert !Less(Ids(ws)[k - 1], Ids(ws)[i]); } else { LessTotal(ws[i].id, ws[i].id); }
        NotBelow(x.id, ws[k - 1].id, ws[i].id);
      } else if i == k {
        LessTotal(x.id, ws[j - 1].id);
      } else {
        assert !Less(Ids(ws)[if j < k then j else j - 1], Ids(ws)[if i < k then i else i - 1]);
      }
    }
  }

  lemma InsertKeepsAll(ws: seq<Snapshot>, x: Snapshot, k: nat)
    requires k <= |ws|
    ensures multiset(ws[..k] + [x] + ws[k..]) == multiset(ws) + multiset{x}
  {
    assert ws == ws[..k] + ws[k..];
  }

  method Insert(ws: seq<Snapshot>, x: Snapshot) returns (out: seq<Snapshot>)
    requires Ordered(Ids(ws))
    ensures Ordered(Ids(out)) && multiset(out) == multiset(ws) + multiset{x}
  {
    var k := |ws|;
    while k > 0 && Less(x.id, ws[k - 1].id)
      invariant 0 <= k <= |ws|
      invariant forall j :: k <= j < |ws| ==> Less(x.id, ws[j].id)
    {
      k := k - 1;
    }
    InsertOrdered(ws, x, k);
    InsertKeepsAll(ws, x, k);
    out := ws[..k] + [x] + ws[k..];
  }

  lemma WhereStep(ws: seq<Snapshot>, i: nat, f: Snapshot -> bool)
    requires i < |ws|
    ensures Where(ws[..i + 1], f) == Where(ws[..i], f) + if f(ws[i]) then [ws[i]] else []
  {
    assert ws[..i + 1][..i] == ws[..i];
  }

  function ServesModel(model: string): Snapshot -> bool { w => Serves(model, w) }

  function OfferedFor(model: string): Snapshot -> bool { w => Offered(model, w) }

  function FullFor(model: string): Snapshot -> bool { w => Full(model, w) }

  function CandidateFor(model: string): Snapshot -> bool { w => Candidate(model, w) }

  /** The filter every strategy goes through, with the counts that explain an empty answer. */
  method Eligible(model: string, workers: seq<Snapshot>) returns (cands: seq<Snapshot>, why: NoWorker)
    ensures Ordered(Ids(cands)) && multiset(cands) == multiset(Where(workers, CandidateFor(model)))
    ensures why == NoWorker(|Where(workers, ServesModel(model))|, |Where(workers, OfferedFor(model))|,
        |Where(workers, FullFor(model))|)
  {
    var serving, eligible, full := 0, 0, 0;
    cands := [];
    for i := 0 to |workers|
      invariant Ordered(Ids(cands)) && multiset(cands) == multiset(Where(workers[..i], CandidateFor(model)))
      invariant serving == |Where(workers[..i], ServesModel(model))|
          && eligible == |Where(workers[..i], OfferedFor(model))|
      invariant full == |Where(workers[..i], FullFor(model))|
    {
      WhereStep(workers, i, CandidateFor(model));
      WhereStep(workers, i, ServesModel(model));
      WhereStep(workers, i, OfferedFor(model));
      WhereStep(workers, i, FullFor(model));
      var w := workers[i];
      if w.model == model {
        serving := serving + 1;
        if Schedulable(w) {
          eligible := eligible + 1;
          if w.active >= w.maxConcurrency { full := full + 1; } else { cands := Insert(cands, w); }
        }
      }
    }
    assert workers[..|workers|] == workers;
    why := NoWorker(serving, eligible, full);
  }

  // ------------------------------------------------------------------ the least loaded worker

  lemma WhereIn(ws: seq<Snapshot>, f: Snapshot -> bool)
    ensures forall w :: w in Where(ws, f) <==> w in ws && f(w)
  {
    if ws != [] {
      WhereIn(ws[..|ws| - 1], f);
      forall w | w in ws ensures w in ws[..|ws| - 1] || w == ws[|ws| - 1] {}
    }
  }

  lemma {:induction false} WhereOrdered(ws: seq<Snapshot>, f: Snapshot -> bool)
    requires Ordered(Ids(ws))
    ensures Ordered(Ids(Where(ws, f)))
  {
    if ws != [] {
      var rest, x := ws[..|ws| - 1], ws[|ws| - 1];
      assert Ordered(Ids(rest)) by {
        forall i, j | 0 <= i < j < |rest| ensures !Less(rest[j].id, rest[i].id) {
          assert !Less(Ids(ws)[j], Ids(ws)[i]);
        }
      }
      WhereOrdered(rest, f);
      WhereIn(rest, f);
      var r := Where(rest, f);
      forall i | 0 <= i < |r| ensures !Less(x.id, r[i].id) {
        assert r[i] in rest;
        var j :| 0 <= j < |rest| && rest[j] == r[i];
        assert !Less(Ids(ws)[|ws| - 1], Ids(ws)[j]);
      }
      assert forall i, j :: 0 <= i < j < |r| ==> !Less(r[j].id, r[i].id) by {
        forall i, j | 0 <= i < j < |r| ensures !Less(r[j].id, r[i].id) { assert !Less(Ids(r)[j], Ids(r)[i]); }
      }
    }
  }

  method LeastLoad(cands: seq<Snapshot>, load: Snapshot -> int) returns (least: int)
    requires cands != []
    ensures (forall w :: w in cands ==> least <= load(w)) && exists w :: w in cands && load(w) == least
  {
    least := load(cands[0]);
    ghost var at := 0;
    for i := 1 to |cands|
      invariant forall j :: 0 <= j < i ==> least <= load(cands[j])
      invariant 0 <= at < |cands| && load(cands[at]) == least
    {
      if load(cands[i]) < least { least, at := load(cands[i]), i; }
    }
    assert cands[at] in cands;
  }

  method TiedFor(cands: seq<Snapshot>, load: Snapshot -> int, least: int) returns (tied: seq<Snapshot>)
    ensures tied == Where(cands, w => load(w) == least)
  {
    tied := [];
    for i := 0 to |cands|
      invariant tied == Where(cands[..i], w => load(w) == least)
    {
      WhereStep(cands, i, w => load(w) == least);
      if load(cands[i]) == least { tied := tied + [cands[i]]; }
    }
    assert cands[..|cands|] == cands;
  }

  /** chooseWith: the minimum of `load`; workers tied for it take turns. */
  method ChooseLeast(rot: Rotor, model: string, cands: seq<Snapshot>, load: Snapshot -> int) returns (chosen: Snapshot)
    requires cands != [] && Ordered(Ids(cands))
    modifies rot
    ensures chosen in cands && forall w :: w in cands ==> load(chosen) <= load(w)
    ensures Picks(BYTE_ORDER, Ids(Where(cands, w => load(w) == load(chosen))), old(rot.LastOf(model)), chosen.id)
    ensures rot.last == old(rot.last)[model := chosen.id]
  {
    var least := LeastLoad(cands, load);
    ghost var f := w => load(w) == least;
    var tied := TiedFor(cands, load, least);
    SameWhere(cands, f, w => load(w) == least);
    WhereIn(cands, f);
    WhereOrdered(cands, f);
    var k := rot.Next(model, Ids(tied));
    chosen := tied[k];
    assert chosen in tied;
    SameWhere(cands, f, w => load(w) == load(chosen));
  }

  lemma {:induction false} SameWhere(ws: seq<Snapshot>, f: Snapshot -> bool, g: Snapshot -> bool)
    requires forall w :: f(w) == g(w)
    ensures Where(ws, f) == Where(ws, g)
  {
    if ws != [] { SameWhere(ws[..|ws| - 1], f, g); }
  }
}
