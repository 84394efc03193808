/** The mock worker's engine (internal/mockworker/engine.go): a bounded number of generations, strict arrival order, and
    the throughput ring. */
module Engine {
  import opened Prelude

  datatype Waiter = Waiter(id: nat, tokens: nat)

  /** The engine, and who is where: `holders` have a slot, `granted` were handed one while they waited and have not
      gone on yet. Callers are numbered as they arrive; `grants` lists them as they get slots. */
  datatype State = State(active: int, queue: seq<Waiter>, queuedTokens: int, holders: set<nat>, granted: set<nat>,
      next: nat,
                         grants: seq<nat>, rejected: nat, cancelled: nat)

  const Idle: State := State(0, [], 0, {}, {}, 0, [], 0, 0)

  datatype Limits = Limits(maxActive: nat, maxQueue: nat)

  function Sum(q: seq<Waiter>): nat { if q == [] then 0 else Sum(q[..|q| - 1]) + q[|q| - 1].tokens }

  // ------------------------------------------------------------------ operations

  /** The first half of Acquire: a slot at once, a refusal, or a place in the queue. */
  function Arrive(l: Limits, s: State, tokens: nat): State {
    var t := s.(next := s.next + 1);
    if s.active < l.maxActive && s.queue == []
        then t.(active := s.active + 1, holders := s.holders + {s.next}, grants := s.grants + [s.next])
    else if |s.queue| >= l.maxQueue then t.(rejected := s.rejected + 1)
    else t.(queue := s.queue + [Waiter(s.next, tokens)], queuedTokens := s.queuedTokens + tokens)
  }

  /** Free a slot and hand it straight to the oldest waiter. */
  function FreeSlot(s: State): State {
    if s.queue == [] then s.(active := s.active - 1)
    else
      var w := s.queue[0];
      s.(queue := s.queue[1..], queuedTokens := s.queuedTokens - w.tokens, granted := s.granted + {w.id},
          grants := s.grants + [w.id])
  }

  /** The one who has a slot leaves it. */
  function Vacate(s: State, id: nat): State {
    FreeSlot(s.(granted := s.granted - {id}, holders := s.holders - {id}))
  }

  /** Where a waiter stands, or the length when it does not wait. */
  function Pos(q: seq<Waiter>, id: nat): (k: nat)
    ensures k <= |q| && (k < |q| ==> q[k].id == id) && forall i :: 0 <= i < k ==> q[i].id != id
  {
    if q == [] then 0 else var k := Pos(q[..|q| - 1], id); if k < |q| - 1 || q[|q| - 1].id == id then k else |q|
  }

  predicate Waits(q: seq<Waiter>, id: nat) { Pos(q, id) < |q| }

  /** Take a waiter out of the queue. */
  function Leave(s: State, id: nat): State {
    var k := Pos(s.queue, id);
    if k == |s.queue| then s
    else s.(queue := s.queue[..k] + s.queue[k + 1..], queuedTokens := s.queuedTokens - s.queue[k].tokens)
  }

  datatype Op = Acquire(tokens: nat) | GoOn(id: nat) | Abandon(id: nat) | Release(id: nat)

  /** A waiter goes on or gives up only while it waits or has been granted; anyone may call
      release again: only the first call of a holder has an effect. */
  ghost predicate Enabled(s: State, op: Op) {
    match op
    case Acquire(_) => true
    case GoOn(id) => id in s.granted
    case Abandon(id) => id in s.granted || Waits(s.queue, id)
    case Release(_) => true
  }

  /** The operation leaves a slot. */
  ghost predicate Leaves(s: State, op: Op) {
    (op.Release? && op.id in s.holders) || (op.Abandon? && op.id in s.granted)
  }

  ghost function Step(l: Limits, s: State, op: Op): State
    requires Enabled(s, op)
  {
    match op
    case Acquire(tokens) => Arrive(l, s, tokens)
    case GoOn(id) => s.(granted := s.granted - {id}, holders := s.holders + {id})
    case Abandon(id) =>
      var t := s.(cancelled := s.cancelled + 1);
      if id in s.granted then Vacate(t, id) else Leave(t, id)
    case Release(id) => if id in s.holders then Vacate(s, id) else s
  }

  // ------------------------------------------------------------------ what every step keeps

  function Ids(q: seq<Waiter>): seq<nat> { seq(|q|, i requires 0 <= i < |q| => q[i].id) }

  /** Everyone who got a slot and then everyone who waits: this list is in arrival order. */
  function Line(s: State): seq<nat> { s.grants + Ids(s.queue) }

  ghost predicate InOrder(s: State) { Increasing(Line(s)) && forall i :: 0 <= i < |Line(s)| ==> Line(s)[i] < s.next }

  /** Slots are those of their holders, at most the limit, and none is idle beside a waiter; `spare` is a slot being
      passed on. */
  ghost predicate Conserved(l: Limits, s: State, spare: nat) {
    && s.active == |s.holders| + |s.granted| + spare && s.holders !! s.granted
    && s.active <= l.maxActive && |s.queue| <= l.maxQueue && (s.queue != [] ==> s.active == l.maxActive)
    && forall id :: id in s.holders || id in s.granted ==> id in s.grants
  }

  ghost predicate Inv(l: Limits, s: State) { Conserved(l, s, 0) && s.queuedTokens == Sum(s.queue) && InOrder(s) }

  lemma {:induction false} SumAppend(a: seq<Waiter>, b: seq<Waiter>)
    ensures Sum(a + b) == Sum(a) + Sum(b)
  {
    if b == [] {
      assert a + b == a;
    } else {
      assert (a + b)[..|a + b| - 1] == a + b[..|b| - 1];
      SumAppend(a, b[..|b| - 1]);
    }
  }

  lemma SumOne(w: Waiter)
    ensures Sum([w]) == w.tokens
  {
    assert [w][..0] == [];
  }

  lemma SumAround(a: seq<Waiter>, w: Waiter, b: seq<Waiter>)
    ensures Sum(a + [w] + b) == Sum(a + b) + w.tokens
  {
    SumAppend(a + [w], b);
    SumAppend(a, [w]);
    SumAppend(a, b);
    SumOne(w);
  }

  lemma SumWithout(q: seq<Waiter>, k: nat)
    requires k < |q|
    ensures Sum(q[..k] + q[k + 1..]) == Sum(q) - q[k].tokens
  {
    SumAround(q[..k], q[k], q[k + 1..]);
    assert q == q[..k] + [q[k]] + q[k + 1..];
  }

  lemma WaiterIsNew(s: State, k: nat)
    requires InOrder(s) && k < |s.queue|
    ensures s.queue[k].id !in s.grants
  {
    var line := Line(s);
    assert line[|s.grants| + k] == s.queue[k].id;
    forall i | 0 <= i < |s.grants| ensures s.grants[i] != s.queue[k].id { assert line[i] == s.grants[i]; }
  }

  lemma FreeSlotLine(s: State)
    requires s.active > 0 && s.queue != []
    ensures Line(FreeSlot(s)) == Line(s)
  {
  }

  lemma FreeSlotConserves(l: Limits, s: State)
    requires s.active > 0 && Conserved(l, s, 1) && InOrder(s)
    ensures Conserved(l, FreeSlot(s), 0)
  {
    if s.queue != [] {
      WaiterIsNew(s, 0);
      var w, t := s.queue[0].id, FreeSlot(s);
      assert w !in s.granted && |s.granted + {w}| == |s.granted| + 1;
      assert t.grants[|s.grants|] == w;
      forall id | id in s.grants ensures id in t.grants {
        var i :| 0 <= i < |s.grants| && s.grants[i] == id;
        assert t.grants[i] == id;
      }
    }
  }

  lemma FreeSlotTokens(s: State)
    requires s.active > 0 && s.queuedTokens == Sum(s.queue)
    ensures FreeSlot(s).queuedTokens == Sum(FreeSlot(s).queue)
  {
    if s.queue != [] {
      SumWithout(s.queue, 0);
      assert s.queue[..0] + s.queue[1..] == s.queue[1..];
    }
  }

  lemma FreeSlotInv(l: Limits, s: State)
    requires s.active > 0 && Conserved(l, s, 1) && s.queuedTokens == Sum(s.queue) && InOrder(s)
    ensures Inv(l, FreeSlot(s))
  {
    FreeSlotConserves(l, s);
    FreeSlotTokens(s);
    if s.queue != [] { FreeSlotLine(s); } else { assert Line(FreeSlot(s)) == Line(s); }
  }

  lemma ArriveInv(l: Limits, s: State, tokens: nat)
    requires Inv(l, s)
    ensures Inv(l, Step(l, s, Acquire(tokens)))
  {
    var t := Arrive(l, s, tokens);
    if s.active < l.maxActive && s.queue == [] {
      assert Line(s) == s.grants && Line(t) == s.grants + [s.next];
      assert s.next !in s.grants;
      assert forall id :: id in s.grants ==> id in t.grants;
      assert t.grants[|s.grants|] == s.next;
    } else if |s.queue| < l.maxQueue {
      assert Line(t) == Line(s) + [s.next];
      SumAppend(s.queue, [Waiter(s.next, tokens)]);
      assert [Waiter(s.next, tokens)][..0] == [];
    }
  }

  lemma {:induction false} IncreasingWithout(s: seq<nat>, n: nat)
    requires Increasing(s) && n < |s|
    ensures Increasing(s[..n] + s[n + 1..]) && forall x :: x in s[..n] + s[n + 1..] ==> x in s
  {
    var t := s[..n] + s[n + 1..];
    assert forall i :: 0 <= i < |t| ==> t[i] == s[if i < n then i else i + 1];
  }

  lemma LeaveOrder(s: State, id: nat)
    requires InOrder(s)
    ensures InOrder(Leave(s, id))
  {
    var k, t := Pos(s.queue, id), Leave(s, id);
    if k < |s.queue| {
      var n := |s.grants| + k;
      assert Line(t) == Line(s)[..n] + Line(s)[n + 1..];
      IncreasingWithout(Line(s), n);
      forall i | 0 <= i < |Line(t)| ensures Line(t)[i] < s.next { assert Line(t)[i] in Line(s); }
    }
  }

  lemma LeaveInv(l: Limits, s: State, id: nat)
    requires Inv(l, s)
    ensures Inv(l, Leave(s, id))
  {
    LeaveOrder(s, id);
    if Pos(s.queue, id) < |s.queue| { SumWithout(s.queue, Pos(s.queue, id)); }
  }

  lemma GoOnInv(l: Limits, s: State, id: nat)
    requires Inv(l, s) && id in s.granted
    ensures Inv(l, Step(l, s, GoOn(id)))
  {
    assert Line(s.(granted := s.granted - {id}, holders := s.holders + {id})) == Line(s);
  }

  /** Taking a slot away from the one who has it leaves that slot to be passed on. */
  lemma GiveUpSlot(l: Limits, s: State, id: nat)
    requires Inv(l, s) && (id in s.granted || id in s.holders)
    ensures s.active > 0 && Inv(l, Vacate(s, id))
  {
    var t := s.(granted := s.granted - {id}, holders := s.holders - {id});
    assert Line(t) == Line(s);
    assert if id in s.granted then s.holders - {id} == s.holders else s.granted - {id} == s.granted;
    FreeSlotInv(l, t);
  }

  lemma CountedInv(l: Limits, s: State)
    requires Inv(l, s)
    ensures Inv(l, s.(cancelled := s.cancelled + 1))
  {
    assert Line(s.(cancelled := s.cancelled + 1)) == Line(s);
  }

  lemma AbandonGranted(l: Limits, s: State, id: nat)
    requires Inv(l, s) && id in s.granted
    ensures s.active > 0 && Inv(l, Vacate(s.(cancelled := s.cancelled + 1), id))
  {
    CountedInv(l, s);
    GiveUpSlot(l, s.(cancelled := s.cancelled + 1), id);
  }

  lemma AbandonWaiting(l: Limits, s: State, id: nat)
    requires Inv(l, s)
    ensures Inv(l, Leave(s.(cancelled := s.cancelled + 1), id))
  {
    CountedInv(l, s);
    LeaveInv(l, s.(cancelled := s.cancelled + 1), id);
  }

  lemma ReleaseInv(l: Limits, s: State, id: nat)
    requires Inv(l, s) && id in s.holders
    ensures s.active > 0 && Inv(l, Step(l, s, Release(id)))
  {
    GiveUpSlot(l, s, id);
  }

  lemma AbandonInv(l: Limits, s: State, id: nat)
    requires Inv(l, s) && Enabled(s, Abandon(id))
    ensures (id in s.granted ==> s.active > 0) && Inv(l, Step(l, s, Abandon(id)))
  {
    if id in s.granted { AbandonGranted(l, s, id); } else { AbandonWaiting(l, s, id); }
  }

  lemma StepInv(l: Limits, s: State, op: Op)
    requires Inv(l, s) && Enabled(s, op)
    ensures Leaves(s, op) ==> s.active > 0
    ensures Inv(l, Step(l, s, op))
  {
    match op
    case Acquire(tokens) => ArriveInv(l, s, tokens);
    case GoOn(id) => GoOnInv(l, s, id);
    case Abandon(id) => AbandonInv(l, s, id);
    case Release(id) => if id in s.holders { ReleaseInv(l, s, id); }
  }

  // ------------------------------------------------------------------ every run

  ghost predicate Run(l: Limits, ops: seq<Op>, states: seq<State>) {
    && |states| == |ops| + 1 && states[0] == Idle
    && forall i :: 0 <= i < |ops| ==>
         && Enabled(states[i], ops[i]) && states[i + 1] == Step(l, states[i], ops[i])
  }

  /** The engine conserves work in every run: no more generations than the limit, a waiter only when every slot is
      taken, the token count of the queue exact, and slots given out in arrival order. */
  lemma {:induction false} WorkIsConserved(l: Limits, ops: seq<Op>, states: seq<State>, n: nat)
    requires Run(l, ops, states) && n < |states|
    ensures var s := states[n];
            && Inv(l, s) && 0 <= s.active <= l.maxActive && (s.queue != [] ==> s.active == l.maxActive)
            && s.queuedTokens == Sum(s.queue) && Increasing(s.grants)
  {
    if n == 0 {
      assert Line(Idle) == [];
    } else {
      WorkIsConserved(l, ops, states, n - 1);
      StepInv(l, states[n - 1], ops[n - 1]);
    }
    var s := states[n];
    forall i, j | 0 <= i < j < |s.grants| ensures s.grants[i] < s.grants[j] { assert Line(s)[i] < Line(s)[j]; }
  }

  /** A slot that was granted to a waiter that gave up is not lost: it goes to the next waiter, or is free. */
  lemma AbandonedSlotGoesOn(l: Limits, s: State, id: nat)
    requires Inv(l, s) && id in s.granted
    ensures s.active > 0
    ensures var t := Step(l, s, Abandon(id));
            if s.queue == [] then t.active == s.active - 1 else t.active == s.active
                                                                && t.granted == s.granted - {id} + {s.queue[0].id}
  {
    assert |s.granted| > 0;
  }

  // ------------------------------------------------------------------ the implementation

  method FindWaiter(q: seq<Waiter>, id: nat) returns (k: nat)
    ensures k == Pos(q, id)
  {
    k := 0;
    while k < |q|
      invariant k <= |q| && forall i :: 0 <= i < k ==> q[i].id != id
    {
      if q[k].id == id { return; }
      k := k + 1;
    }
  }

  class Worker {
    const l: Limits
    var active: int
    var queue: seq<Waiter>
    var queuedTokens: int
    var rejected: nat
    var cancelled: nat
    var next: nat
    var holders: set<nat> // whose release function has not run yet
    var granted: set<nat>
    ghost var grants: seq<nat>

    ghost function St(): State
      reads this
    {
      State(active, queue, queuedTokens, holders, granted, next, grants, rejected, cancelled)
    }

    constructor (l: Limits)
      ensures this.l == l && St() == Idle
    {
      this.l := l;
      active, queue, queuedTokens, rejected, cancelled, next := 0, [], 0, 0, 0, 0;
      holders, granted, grants := {}, {}, [];
    }

    method Enter(tokens: nat) returns (id: nat)
      modifies this
      ensures St() == Step(l, old(St()), Acquire(tokens)) && id == old(next)
    {
      id, next := next, next + 1;
      if active < l.maxActive && |queue| == 0 {
        active, holders, grants := active + 1, holders + {id}, grants + [id];
      } else if |queue| >= l.maxQueue {
        rejected := rejected + 1;
      } else {
        queue, queuedTokens := queue + [Waiter(id, tokens)], queuedTokens + tokens;
      }
    }

    /** A waiter that was granted a slot goes on, with a release function of its own. */
    method GoesOn(id: nat)
      requires id in granted
      modifies this`granted, this`holders
      ensures St() == Step(l, old(St()), GoOn(id))
    {
      granted, holders := granted - {id}, holders + {id};
    }

    method PassOn()
      modifies this`active, this`queue, this`queuedTokens, this`granted, this`grants
      ensures St() == FreeSlot(old(St()))
    {
      active := active - 1;
      if |queue| > 0 {
        var w := queue[0];
        queue, queuedTokens, active := queue[1..], queuedTokens - w.tokens, active + 1;
        granted, grants := granted + {w.id}, grants + [w.id];
      }
    }

    method Leaving(id: nat)
      requires Enabled(St(), Abandon(id))
      modifies this
      ensures St() == Step(l, old(St()), Abandon(id))
    {
      cancelled := cancelled + 1;
      if id in granted {
        granted, holders := granted - {id}, holders - {id};
        PassOn();
      } else {
        LeaveQueue(id);
      }
    }

    method LeaveQueue(id: nat)
      modifies this`queue, this`queuedTokens
      ensures St() == Leave(old(St()), id)
    {
      var k := FindWaiter(queue, id);
      if k < |queue| { queuedTokens, queue := queuedTokens - queue[k].tokens, queue[..k] + queue[k + 1..]; }
    }

    method Finish(id: nat)
      modifies this
      ensures St() == Step(l, old(St()), Release(id))
    {
      if id in holders {
        granted, holders := granted - {id}, holders - {id};
        PassOn();
      }
    }
  }
}
