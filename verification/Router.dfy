/** The router's critical sections (internal/gateway/router.go): reserve with its re-select loop, and releaseSlot with
    the hand-off. Each is shown to take exactly the step the slot machine allows. */
module Router {
  import opened Prelude
  import opened Scheduler
  import Q = AdmissionQueue
  import opened QueueSet
  import Slots

  ghost predicate DistinctIds(workers: seq<Snapshot>) {
    forall i, j :: 0 <= i < j < |workers| ==> workers[i].id != workers[j].id
  }

  function LocalOf(inflight: map<string, nat>, w: string): nat { if w in inflight then inflight[w] else 0 }

  /** One more request on a worker, and one less; a worker without requests has no entry. */
  function Taken(inflight: map<string, nat>, w: string): map<string, nat> { inflight[w := LocalOf(inflight, w) + 1] }

  function GivenBack(inflight: map<string, nat>, w: string): map<string, nat> {
    if LocalOf(inflight, w) <= 1 then inflight - {w} else inflight[w := inflight[w] - 1]
  }

  ghost predicate NoZeros(inflight: map<string, nat>) { forall w :: w in inflight ==> inflight[w] > 0 }

  /** A slot that is taken and given back leaves the counts as they were; giving back never counts below zero, touches
      no other worker, and leaves no empty entry. */
  lemma TakeThenGiveBack(inflight: map<string, nat>, w: string)
    requires NoZeros(inflight)
    ensures NoZeros(Taken(inflight, w)) && GivenBack(Taken(inflight, w), w) == inflight
    ensures NoZeros(GivenBack(inflight, w)) && LocalOf(GivenBack(inflight, w), w) == Max(LocalOf(inflight, w) - 1, 0)
    ensures forall x :: x != w ==> LocalOf(GivenBack(inflight, w), x) == LocalOf(inflight, x)
                                   == LocalOf(Taken(inflight, w), x)
  {
    var more := Taken(inflight, w);
    if LocalOf(inflight, w) == 0 { assert more - {w} == inflight; } else { assert more[w := more[w] - 1] == inflight; }
  }

  /** The worker may take one more: offered, its breaker gives a ticket, and the overlaid load is below its limit. */
  predicate Open(inflight: map<string, nat>, model: string, admits: set<string>, w: Snapshot) {
    Offered(model, w) && w.id in admits && Max(w.active, LocalOf(inflight, w.id)) < w.maxConcurrency
  }

  /** The private copy of the view: overlaid counts, and the workers whose breaker refused marked ineligible. */
  ghost predicate Copy(inflight: map<string, nat>, workers: seq<Snapshot>, ws: seq<Snapshot>, admits: set<string>) {
    && |ws| == |workers|
    && forall i :: 0 <= i < |ws| ==>
         && (ws[i] == workers[i].(active := Max(workers[i].active, LocalOf(inflight, workers[i].id)),
             eligible := ws[i].eligible))
         && (ws[i].eligible != workers[i].eligible ==> !ws[i].eligible && ws[i].id !in admits
                                                       && ws[i].active < ws[i].maxConcurrency)
  }

  /** The view with the local counts laid over the reported ones. */
  function Overlaid(inflight: map<string, nat>, workers: seq<Snapshot>): (ws: seq<Snapshot>)
    ensures |ws| == |workers|
  {
    seq(|workers|, i requires 0 <= i < |workers| => workers[i].(active := Max(workers[i].active,
        LocalOf(inflight, workers[i].id))))
  }

  /** Worker `id` may take one more, and no worker that may is less loaded. */
  ghost predicate LeastOpen(inflight: map<string, nat>, model: string, workers: seq<Snapshot>, admits: set<string>,
      load: Snapshot -> int, id: string) {
    exists i :: 0 <= i < |workers| && workers[i].id == id && Open(inflight, model, admits, workers[i])
      && forall j :: 0 <= j < |workers| && Open(inflight, model, admits, workers[j])
                     ==> load(Overlaid(inflight, workers)[i]) <= load(Overlaid(inflight, workers)[j])
  }

  /** Nobody may take one more, and `why` tells the offered workers apart from the refused: all of them are full. */
  ghost predicate AllShut(inflight: map<string, nat>, model: string, workers: seq<Snapshot>, admits: set<string>,
      why: NoWorker) {
    && (forall i :: 0 <= i < |workers| ==> !Open(inflight, model, admits, workers[i]))
    && why.serving == |Where(workers, ServesModel(model))|
    && why.eligible == why.atCapacity == |Where(Overlaid(inflight, workers), FullFor(model))|
  }

  function Flags(ws: seq<Snapshot>): nat {
    if ws == [] then 0 else Flags(ws[1..]) + if ws[0].eligible then 1 else 0
  }

  lemma {:induction false} FlagsDrop(ws: seq<Snapshot>, k: nat)
    requires k < |ws| && ws[k].eligible
    ensures Flags(ws[k := ws[k].(eligible := false)]) == Flags(ws) - 1
  {
    if k > 0 {
      assert ws[k := ws[k].(eligible := false)][1..] == ws[1..][k - 1 := ws[k].(eligible := false)];
      FlagsDrop(ws[1..], k - 1);
    } else {
      assert ws[k := ws[k].(eligible := false)][1..] == ws[1..];
    }
  }

  /** The candidates of the copy, found again in it. */
  lemma CandidateAt(model: string, ws: seq<Snapshot>, cands: seq<Snapshot>, w: Snapshot)
    requires multiset(cands) == multiset(Where(ws, CandidateFor(model)))
    ensures w in cands <==> exists k :: 0 <= k < |ws| && ws[k] == w && Candidate(model, w)
  {
    var f := CandidateFor(model);
    WhereIn(ws, f);
    assert w in cands <==> w in multiset(cands);
    assert w in Where(ws, f) <==> w in multiset(Where(ws, f));
  }

  lemma SameWorker(inflight: map<string, nat>, workers: seq<Snapshot>, ws: seq<Snapshot>, admits: set<string>,
      w: Snapshot, k: nat)
    requires DistinctIds(workers) && Copy(inflight, workers, ws, admits) && k < |ws| && ws[k].id == w.id
    requires exists i :: 0 <= i < |ws| && ws[i] == w
    ensures ws[k] == w
  {
    var i :| 0 <= i < |ws| && ws[i] == w;
    assert i == k;
  }

  lemma {:induction false} WhereSize(a: seq<Snapshot>, b: seq<Snapshot>, f: Snapshot -> bool, g: Snapshot -> bool)
    requires |a| == |b| && forall i :: 0 <= i < |a| ==> f(a[i]) == g(b[i])
    ensures |Where(a, f)| == |Where(b, g)|
  {
    if a != [] { WhereSize(a[..|a| - 1], b[..|b| - 1], f, g); }
  }

  /** Without a candidate left, every offered worker of the copy is full, and only workers with room were dropped. */
  lemma NoneOpen(inflight: map<string, nat>, model: string, workers: seq<Snapshot>, ws: seq<Snapshot>,
      admits: set<string>)
    requires Copy(inflight, workers, ws, admits) && Where(ws, CandidateFor(model)) == []
    ensures AllShut(inflight, model, workers, admits,
                    NoWorker(|Where(ws, ServesModel(model))|, |Where(ws, OfferedFor(model))|,
                        |Where(ws, FullFor(model))|))
  {
    WhereIn(ws, CandidateFor(model));
    forall i | 0 <= i < |workers| ensures !Candidate(model, ws[i]) { assert ws[i] in ws; }
    WhereSize(ws, workers, ServesModel(model), ServesModel(model));
    WhereSize(ws, ws, OfferedFor(model), FullFor(model));
    WhereSize(ws, Overlaid(inflight, workers), FullFor(model), FullFor(model));
  }

  ghost predicate LeastCandidate(model: string, ws: seq<Snapshot>, load: Snapshot -> int, w: Snapshot) {
    w in ws && Candidate(model, w) && forall x :: x in ws && Candidate(model, x) ==> load(w) <= load(x)
  }

  /** The least loaded candidate of the copy that its breaker admits is least loaded among all that are open. */
  lemma ChosenIsLeast(inflight: map<string, nat>, model: string, workers: seq<Snapshot>, ws: seq<Snapshot>,
                      admits: set<string>, load: Snapshot -> int, w: Snapshot, k: nat)
    requires Copy(inflight, workers, ws, admits) && k < |ws| && ws[k] == w && w.id in admits
        && LeastCandidate(model, ws, load, w)
    ensures LeastOpen(inflight, model, workers, admits, load, w.id)
  {
    assert ws[k] == Overlaid(inflight, workers)[k];
    forall j | 0 <= j < |workers| && Open(inflight, model, admits, workers[j])
      ensures load(Overlaid(inflight, workers)[k]) <= load(Overlaid(inflight, workers)[j])
    {
      assert ws[j] == Overlaid(inflight, workers)[j] && ws[j] in ws;
    }
    assert Open(inflight, model, admits, workers[k]);
  }

  /** The place of the first worker with this ID. */
  function First(ws: seq<Snapshot>, id: string): (k: nat)
    requires exists i :: 0 <= i < |ws| && ws[i].id == id
    ensures k < |ws| && ws[k].id == id && forall j :: 0 <= j < k ==> ws[j].id != id
  {
    if ws[0].id == id then 0
    else
      assert exists i :: 0 <= i < |ws[1..]| && ws[1..][i].id == id by {
        var i :| 0 <= i < |ws| && ws[i].id == id;
        assert ws[1..][i - 1].id == id;
      }
      1 + First(ws[1..], id)
  }

  method Find(ws: seq<Snapshot>, id: string) returns (k: nat)
    requires exists i :: 0 <= i < |ws| && ws[i].id == id
    ensures k == First(ws, id)
  {
    k := 0;
    while ws[k].id != id
      invariant k <= First(ws, id)
      decreases |ws| - k
    {
      k := k + 1;
    }
  }

  /** The worker is in the view under the same registration, offered, and its breaker gives a ticket. */
  predicate StillServes(w: Snapshot, seen: Option<Snapshot>, ticket: bool) {
    seen.Some? && seen.value.registered == w.registered && Schedulable(seen.value) && ticket
  }

  // ------------------------------------------------------------------ two workers of one ID

  /** Dropping a worker that was chosen marks the first one with its ID. */
  function Dropped(ws: seq<Snapshot>, id: string): seq<Snapshot>
    requires exists i :: 0 <= i < |ws| && ws[i].id == id
  {
    var k := First(ws, id);
    ws[k := ws[k].(eligible := false)]
  }

  /** The re-selection after a refused choice gets anywhere, with one worker less on offer, exactly when no worker of
      the chosen one's ID that is not eligible stands before the others of that ID. */
  lemma DropProgresses(model: string, ws: seq<Snapshot>, w: Snapshot)
    requires Candidate(model, w) && exists i :: 0 <= i < |ws| && ws[i] == w
    ensures exists i :: 0 <= i < |ws| && ws[i].id == w.id
    ensures Dropped(ws, w.id) != ws <==> ws[First(ws, w.id)].eligible
    ensures Flags(Dropped(ws, w.id)) == Flags(ws) - if ws[First(ws, w.id)].eligible then 1 else 0
  {
    var i :| 0 <= i < |ws| && ws[i] == w;
    assert ws[i].id == w.id;
    var k := First(ws, w.id);
    if ws[k].eligible {
      FlagsDrop(ws, k);
      assert Dropped(ws, w.id)[k] != ws[k];
    } else {
      assert ws[k].(eligible := false) == ws[k];
    }
  }

  /** With two workers of one ID, the first not eligible and the second refused by its breaker, it gets nowhere: the
      second is the only candidate, and dropping it marks the first. */
  lemma SameIdIsChosenAgain(model: string, a: Snapshot, b: Snapshot)
    requires a.id == b.id && !a.eligible && Candidate(model, b)
    ensures [a, b][0].id == b.id
    ensures Where([a, b], CandidateFor(model)) == [b] && Dropped([a, b], b.id) == [a, b]
  {
    var f, ws := CandidateFor(model), [a, b];
    WhereStep(ws, 0, f);
    WhereStep(ws, 1, f);
    assert ws[..0] == [] && ws[..2] == ws;
    DropProgresses(model, ws, b);
  }

  class RouterState {
    var inflight: map<string, nat>
    const rot: Rotor

    constructor ()
      ensures inflight == map[] && fresh(rot)
    {
      inflight := map[];
      rot := new Rotor();
    }

    method Overlay(workers: seq<Snapshot>) returns (ws: seq<Snapshot>)
      ensures ws == Overlaid(inflight, workers)
    {
      ws := [];
      for i := 0 to |workers|
        invariant |ws| == i
        invariant forall j :: 0 <= j < i ==>
                    ws[j] == workers[j].(active := Max(workers[j].active, LocalOf(inflight, workers[j].id)))
      {
        ws := ws + [workers[i].(active := Max(workers[i].active, LocalOf(inflight, workers[i].id)))];
      }
    }

    /** The scheduler's choice from a view, or the counts that explain why there is none. */
    method Choose(model: string, ws: seq<Snapshot>, load: Snapshot -> int)
        returns (pick: Option<Snapshot>, why: NoWorker)
      modifies rot
      ensures why == NoWorker(|Where(ws, ServesModel(model))|, |Where(ws, OfferedFor(model))|,
          |Where(ws, FullFor(model))|)
      ensures pick.None? ==> Where(ws, CandidateFor(model)) == []
      ensures pick.Some? ==> LeastCandidate(model, ws, load, pick.value)
    {
      var cands;
      cands, why := Eligible(model, ws);
      if cands == [] {
        assert |multiset(Where(ws, CandidateFor(model)))| == 0;
        return None, why;
      }
      var w := ChooseLeast(rot, model, cands, load);
      forall x | x in ws && Candidate(model, x) ensures load(w) <= load(x) { CandidateAt(model, ws, cands, x); }
      CandidateAt(model, ws, cands, w);
      return Some(w), why;
    }

    /** The selection of reserve: overlay the local counts, select, take the breaker's ticket (`admits`). A worker
        whose breaker refuses is dropped and the scheduler chooses again, so each is tried at most once. */
    method Select(model: string, workers: seq<Snapshot>, admits: set<string>, load: Snapshot -> int)
        returns (chosen: Option<string>, why: NoWorker)
      requires DistinctIds(workers)
      modifies rot
      ensures chosen.Some? ==> LeastOpen(inflight, model, workers, admits, load, chosen.value)
      ensures chosen.None? ==> AllShut(inflight, model, workers, admits, why)
    {
      var ws := Overlay(workers);
      while true
        invariant Copy(inflight, workers, ws, admits)
        decreases Flags(ws)
      {
        var pick;
        pick, why := Choose(model, ws, load);
        if pick.None? {
          NoneOpen(inflight, model, workers, ws, admits);
          return None, why;
        }
        var w := pick.value;
        var k := Find(ws, w.id);
        SameWorker(inflight, workers, ws, admits, w, k);
        if w.id in admits {
          ChosenIsLeast(inflight, model, workers, ws, admits, load, w, k);
          return Some(w.id), why;
        }
        DropProgresses(model, ws, w);
        ws := ws[k := ws[k].(eligible := false)];
      }
    }

    /** reserve: one critical section that selects a worker and takes its slot. */
    method Reserve(model: string, workers: seq<Snapshot>, admits: set<string>, load: Snapshot -> int)
        returns (chosen: Option<string>, why: NoWorker)
      requires DistinctIds(workers)
      modifies this`inflight, rot
      ensures chosen.Some? ==>
                && LeastOpen(old(inflight), model, workers, admits, load, chosen.value)
                && inflight == Taken(old(inflight), chosen.value)
      ensures chosen.None? ==>
                && AllShut(old(inflight), model, workers, admits, why)
                && inflight == old(inflight)
    {
      chosen, why := Select(model, workers, admits, load);
      if chosen.Some? { inflight := inflight[chosen.value := LocalOf(inflight, chosen.value) + 1]; }
    }

    method GiveBack(w: string)
      modifies this`inflight
      ensures inflight == GivenBack(old(inflight), w)
    {
      if LocalOf(inflight, w) <= 1 { inflight := inflight - {w}; } else { inflight := inflight[w := inflight[w] - 1]; }
    }

    /** releaseSlot: hand the slot to the head waiter if the worker may still serve, else give it back. `seen` is the
        worker in the current registry view and `ticket` the breaker's answer. `wake`: waiters exist although the slot
        was freed, so one must be asked to route. */
    method ReleaseSlot(q: Queues, w: Snapshot, seen: Option<Snapshot>, ticket: bool, token: Q.Value)
        returns (handed: bool, wake: bool)
      requires q.Valid()
      modifies this`inflight, q
      ensures q.Valid() && q.OthersUnchanged(w.model)
      ensures wake <==> old(q.Busy(w.model)) && !StillServes(w, seen, ticket)
      ensures old(q.Busy(w.model)) && StillServes(w, seen, ticket)
          ==> (q.View(w.model), handed) == Q.HandOver(old(q.View(w.model)), token)
      ensures !old(q.Busy(w.model)) || !StillServes(w, seen, ticket)
          ==> !handed && q.View(w.model) == old(q.View(w.model))
      ensures inflight == if handed then old(inflight) else GivenBack(old(inflight), w.id)
    {
      handed, wake := false, false;
      if q.Busy(w.model) {
        if seen.None? || seen.value.registered != w.registered || !Schedulable(seen.value) {
          wake := true;
        } else if !ticket {
          wake := true;
        } else {
          handed := q.Handoff(w.model, token);
        }
      }
      if !handed { GiveBack(w.id); }
    }
  }

  // ------------------------------------------------------------------ the steps of the slot machine

  function Seen(model: string, workers: seq<Snapshot>, admits: set<string>): Slots.View {
    Slots.View(set i | 0 <= i < |workers| && Offered(model, workers[i]) && workers[i].id in admits ::
        workers[i].id, Reports(workers))
  }

  function Reports(workers: seq<Snapshot>): map<string, int> {
    if workers == [] then map[] else Reports(workers[1..])[workers[0].id := workers[0].active]
  }

  function Caps(workers: seq<Snapshot>): map<string, int> {
    if workers == [] then map[] else Caps(workers[1..])[workers[0].id := workers[0].maxConcurrency]
  }

  lemma {:induction false} Tables(workers: seq<Snapshot>, i: nat)
    requires DistinctIds(workers) && i < |workers|
    ensures workers[i].id in Reports(workers) && Reports(workers)[workers[i].id] == workers[i].active
    ensures workers[i].id in Caps(workers) && Caps(workers)[workers[i].id] == workers[i].maxConcurrency
  {
    if i > 0 { Tables(workers[1..], i - 1); }
  }

  /** A routing takes a slot exactly when the slot machine lets it, and finds none exactly when the machine says full.
      */
  lemma ReserveIsAStep(s: Slots.Sys, model: string, workers: seq<Snapshot>, admits: set<string>, w: string)
    requires DistinctIds(workers)
    ensures Slots.HasRoom(s, Caps(workers), Seen(model, workers, admits), w)
       <==> exists i :: 0 <= i < |workers| && workers[i].id == w && Open(s.inflight, model, admits, workers[i])
    ensures Slots.AllFull(s, Caps(workers), Seen(model, workers, admits))
       <==> forall i :: 0 <= i < |workers| ==> !Open(s.inflight, model, admits, workers[i])
  {
    forall i | 0 <= i < |workers|
      ensures workers[i].id in Caps(workers) && Caps(workers)[workers[i].id] == workers[i].maxConcurrency
      ensures Slots.Overlay(s, Seen(model, workers, admits), workers[i].id)
          == Max(workers[i].active, LocalOf(s.inflight, workers[i].id))
    {
      Tables(workers, i);
    }
  }
}
