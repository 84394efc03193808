/** The half-open discipline of a breaker over every run of operations: when it leaves Open, what closes it, and what a
    stale ticket can do. */
module BreakerProtocol {
  import opened Prelude
  import opened Window
  import opened Breaker

  /** What can happen to one breaker, and when (giving up a ticket does not look at the clock). `room` is the ejection
      cap's answer, `rnd` the draw of the jitter, and `who` the attempt that a verdict belongs to, which the breaker
      never sees. */
  datatype Op =
    | Touch(now: int)
    | Take(now: int)
    | GiveUp(now: int, t: Ticket)
    | Judge(now: int, who: nat, t: Ticket, v: Verdict, room: bool, rnd: Draw)
    | JudgeLate(now: int, who: nat, t: Ticket, v: Verdict, room: bool, rnd: Draw)
    | Abort(now: int, who: nat, t: Ticket, okAt: int, room: bool, rnd: Draw)
    | Relax(now: int)

  function Step(p: Params, b: State, op: Op): State
    requires Sane(p) && Shaped(p, b)
  {
    match op
    case Touch(now) => Advance(p, b, now)
    case Take(now) => Acquired(p, b, now).0
    case GiveUp(_, t) => Released(b, t)
    case Judge(now, _, t, v, room, rnd) => Recorded(p, b, now, t, v, room, rnd)
    case JudgeLate(now, _, t, v, room, rnd) => if v == Fault || v == RatioFault
        then RecordedLate(p, b, now, t, v, room, rnd) else b
    case Abort(now, _, t, okAt, room, rnd) => Aborted(p, b, now, t, okAt, room, rnd)
    case Relax(now) => if b.phase == Closed then b else Shut(b, now)
  }

  /** What every operation keeps: ticket numbers are issued once, only a half-open breaker has tickets or successes,
      fewer than are needed to close, the level stays within the doubling range, and an open period fits its level. */
  ghost predicate Inv(p: Params, b: State) {
    && Sane(p) && Shaped(p, b)
    && (forall id :: id in b.tickets ==> 0 < id <= b.nextId)
    && (b.phase != HalfOpen ==> b.tickets == map[] && b.successes == 0)
    && b.successes < p.probeSuccesses && |b.tickets| <= p.probeConcurrency
    && b.level <= MaxLevel(p)
    && (b.phase == Open ==> CoolDownFits(p, b.level, b.coolDown)) && (b.phase != Closed ==> b.everOpened)
  }

  lemma NewInv(p: Params, k: Key)
    requires Sane(p)
    ensures Inv(p, New(k, p))
  {
  }

  lemma OutstandingSize(p: Params, tickets: map<nat, int>, now: int)
    ensures |Outstanding(p, tickets, now)| <= |tickets|
  {
    var a, b := Outstanding(p, tickets, now).Keys, tickets.Keys;
    assert b == a + (b - a);
  }

  lemma RemoveSize(tickets: map<nat, int>, id: nat)
    ensures |tickets - {id}| <= |tickets|
  {
    var a, b := (tickets - {id}).Keys, tickets.Keys;
    assert b == a + (b - a);
  }

  lemma AdvanceInv(p: Params, b: State, now: int)
    requires Inv(p, b)
    ensures Inv(p, Advance(p, b, now))
  {
    OutstandingSize(p, b.tickets, now);
    OutstandingSize(p, map[], now);
  }

  lemma OpenedInv(p: Params, b: State, now: int, fromProbe: bool, rnd: Draw)
    requires Inv(p, b)
    ensures Inv(p, Opened(p, b, now, fromProbe, rnd))
  {
    JitteredFits(p, NextLevel(p, b, now, fromProbe), rnd);
  }

  lemma CountClosedInv(p: Params, b: State, now: int, v: Verdict, room: bool, rnd: Draw)
    requires Inv(p, b)
    ensures Inv(p, CountClosed(p, b, now, v, room, rnd))
  {
    if v != Neutral && b.phase == Closed { OpenedInv(p, Counted(b, now, v), now, false, rnd); }
  }

  lemma TakeInv(p: Params, b: State, now: int)
    requires Inv(p, b)
    ensures Inv(p, Acquired(p, b, now).0)
  {
    AdvanceInv(p, b, now);
    TakeSize(Advance(p, b, now).tickets, Advance(p, b, now).nextId, now);
  }

  lemma ProbedInv(p: Params, c: State, now: int, v: Verdict, id: nat, rnd: Draw)
    requires Inv(p, c) && c.phase == HalfOpen
    ensures Inv(p, Probed(p, c, now, v, id, rnd))
  {
    var d := c.(tickets := c.tickets - {id});
    ReturnedInv(p, c, id);
    if v == Fault || v == RatioFault { OpenedInv(p, d, now, true, rnd); } else if v == OK { PassedInv(p, d, now); }
  }

  lemma ReturnedInv(p: Params, c: State, id: nat)
    requires Inv(p, c) && c.phase == HalfOpen
    ensures Inv(p, c.(tickets := c.tickets - {id}))
  {
    RemoveSize(c.tickets, id);
  }

  lemma PassedInv(p: Params, c: State, now: int)
    requires Inv(p, c) && c.phase == HalfOpen
    ensures var d := c.(successes := c.successes + 1);
        Inv(p, if d.successes >= p.probeSuccesses then Shut(d, now) else d)
  {
  }

  lemma JudgeInv(p: Params, b: State, now: int, t: Ticket, v: Verdict, room: bool, rnd: Draw)
    requires Inv(p, b)
    ensures Inv(p, Recorded(p, b, now, t, v, room, rnd))
  {
    var c := Advance(p, b, now);
    AdvanceInv(p, b, now);
    if t.probe {
      if c.phase == HalfOpen { ProbedInv(p, c, now, v, t.id, rnd); }
    } else {
      CountClosedInv(p, c, now, v, room, rnd);
    }
  }

  lemma AbortInv(p: Params, b: State, now: int, t: Ticket, okAt: int, room: bool, rnd: Draw)
    requires Inv(p, b)
    ensures Inv(p, Aborted(p, b, now, t, okAt, room, rnd))
  {
    if t.probe {
      LateInv(p, b, now, t, Fault, room, rnd);
    } else {
      AdvanceInv(p, b, now);
      var c := Advance(p, b, now);
      CountClosedInv(p, c.(win := Add(c.win, okAt, now, true, -1)), now, Fault, room, rnd);
    }
  }

  lemma StepInv(p: Params, b: State, op: Op)
    requires Inv(p, b)
    ensures Inv(p, Step(p, b, op))
  {
    if op.Judge? || op.JudgeLate? || op.Abort? { SpokenInv(p, b, op); } else { QuietInv(p, b, op); }
  }

  lemma SpokenInv(p: Params, b: State, op: Op)
    requires Inv(p, b) && (op.Judge? || op.JudgeLate? || op.Abort?)
    ensures Inv(p, Step(p, b, op))
  {
    if op.Judge? { JudgeInv(p, b, op.now, op.t, op.v, op.room, op.rnd); }
    else if op.JudgeLate? { LateInv(p, b, op.now, op.t, op.v, op.room, op.rnd); }
    else { AbortInv(p, b, op.now, op.t, op.okAt, op.room, op.rnd); }
  }

  lemma QuietInv(p: Params, b: State, op: Op)
    requires Inv(p, b) && (op.Touch? || op.Take? || op.GiveUp? || op.Relax?)
    ensures Inv(p, Step(p, b, op))
  {
    if op.Touch? { AdvanceInv(p, b, op.now); }
    else if op.Take? { TakeInv(p, b, op.now); }
    else if op.GiveUp? { RemoveSize(b.tickets, op.t.id); }
  }

  lemma TakeSize(tickets: map<nat, int>, id: nat, now: int)
    ensures |tickets[id + 1 := now]| <= |tickets| + 1
  {
    assert tickets[id + 1 := now].Keys == tickets.Keys + {id + 1};
  }

  lemma LateInv(p: Params, b: State, now: int, t: Ticket, v: Verdict, room: bool, rnd: Draw)
    requires Inv(p, b)
    ensures Inv(p, RecordedLate(p, b, now, t, v, room, rnd))
  {
    AdvanceInv(p, b, now);
    CountClosedInv(p, Advance(p, b, now), now, v, room, rnd);
    OpenedInv(p, Advance(p, b, now), now, true, rnd);
  }

  // ------------------------------------------------------------------ the discipline

  /** Whether the operation looks at the clock: a returned ticket and a late verdict that is no fault do not. */
  predicate Looks(op: Op) { !op.GiveUp? && !op.Relax? && !(op.JudgeLate? && (op.v == OK || op.v == Neutral)) }

  /** Still in that open period. */
  predicate InPeriod(b: State, epoch: nat) { b.phase == Open && b.epoch == epoch }

  /** An open period ends exactly when the cap is relaxed or something looks at the breaker after its cool-down; until
      then nothing changes the breaker at all. */
  lemma LeavesOpenOnTime(p: Params, b: State, op: Op)
    requires Inv(p, b) && b.phase == Open
    ensures InPeriod(Step(p, b, op), b.epoch) <==> !(op.Relax? || (Looks(op) && op.now >= b.openUntil))
    ensures InPeriod(Step(p, b, op), b.epoch) ==> Step(p, b, op) == b
  {
  }

  /** What one operation does to the level, the period and the time of closing. */
  ghost predicate Moves(p: Params, b: State, now: int, c: State)
    requires Sane(p)
  {
    && (c.epoch == b.epoch ==>
          && c.level == b.level && c.everOpened == b.everOpened
          && (b.phase == Closed ==> c.phase == Closed && c.closedAt == b.closedAt)
          && (b.phase != Closed && c.phase == Closed ==> c.closedAt == now))
    && (c.epoch != b.epoch ==>
          && c.epoch == b.epoch + 1 && c.phase == Open && c.openUntil == now + c.coolDown
          && c.level == if b.phase == Closed then NextLevel(p, b, now, false) else Min(b.level + 1, MaxLevel(p)))
  }

  lemma CountMoves(p: Params, b: State, now: int, v: Verdict, room: bool, rnd: Draw)
    requires Inv(p, b)
    ensures Moves(p, b, now, CountClosed(p, b, now, v, room, rnd))
  {
  }

  lemma JudgeMoves(p: Params, b: State, now: int, t: Ticket, v: Verdict, room: bool, rnd: Draw)
    requires Inv(p, b)
    ensures Moves(p, b, now, Recorded(p, b, now, t, v, room, rnd))
  {
    AdvanceInv(p, b, now);
    CountMoves(p, Advance(p, b, now), now, v, room, rnd);
  }

  lemma LateMoves(p: Params, b: State, now: int, t: Ticket, v: Verdict, room: bool, rnd: Draw)
    requires Inv(p, b)
    ensures Moves(p, b, now, RecordedLate(p, b, now, t, v, room, rnd))
  {
    AdvanceInv(p, b, now);
    CountMoves(p, Advance(p, b, now), now, v, room, rnd);
  }

  lemma AbortMoves(p: Params, b: State, now: int, t: Ticket, okAt: int, room: bool, rnd: Draw)
    requires Inv(p, b)
    ensures Moves(p, b, now, Aborted(p, b, now, t, okAt, room, rnd))
  {
    LateMoves(p, b, now, t, Fault, room, rnd);
    AdvanceInv(p, b, now);
    var c := Advance(p, b, now);
    CountMoves(p, c.(win := Add(c.win, okAt, now, true, -1)), now, Fault, room, rnd);
  }

  lemma StepMoves(p: Params, b: State, op: Op)
    requires Inv(p, b)
    ensures Moves(p, b, op.now, Step(p, b, op))
  {
    match op
    case Touch(now) =>
    case Take(now) =>
    case GiveUp(_, t) =>
    case Judge(now, _, t, v, room, rnd) => JudgeMoves(p, b, now, t, v, room, rnd);
    case JudgeLate(now, _, t, v, room, rnd) => LateMoves(p, b, now, t, v, room, rnd);
    case Abort(now, _, t, okAt, room, rnd) => AbortMoves(p, b, now, t, okAt, room, rnd);
    case Relax(now) =>
  }

  /** A ticket of another open period changes nothing beyond the lazy transition. */
  lemma StaleTicketIsIgnored(p: Params, b: State, op: Op)
    requires Sane(p) && Shaped(p, b) && (op.GiveUp? || op.Judge? || op.JudgeLate? || op.Abort?) && op.t.epoch != b.epoch
    ensures Step(p, b, op) == (if op.GiveUp? || (op.JudgeLate? && (op.v == OK || op.v == Neutral)) then b
        else Advance(p, b, op.now))
  {
  }

  /** An accepted success of a probe: the ticket is outstanding in the current half-open period. */
  predicate Passes(p: Params, b: State, op: Op) {
    op.Judge? && op.v == OK && op.t.probe && var c := Advance(p, b, op.now);
        c.phase == HalfOpen && c.epoch == op.t.epoch && op.t.id in c.tickets
  }

  /** Only an accepted probe success closes a breaker that is not closed, cap relaxation aside, and only when it is
      the last one needed. */
  lemma ClosesOnlyByProbing(p: Params, b: State, op: Op)
    requires Inv(p, b) && b.phase != Closed && Step(p, b, op).phase == Closed && !op.Relax?
    ensures b.phase == HalfOpen && Passes(p, b, op) && b.successes + 1 >= p.probeSuccesses && op.t.epoch == b.epoch
  {
  }

  // ------------------------------------------------------------------ runs

  /** The tickets that have passed in the half-open period so far. */
  function PassedNext(p: Params, b: State, passed: set<nat>, op: Op): set<nat>
    requires Sane(p) && Shaped(p, b)
  {
    if Step(p, b, op).phase != HalfOpen || b.phase != HalfOpen then {}
    else if Passes(p, b, op) then passed + {op.t.id} else passed
  }

  /** The count of successes is the number of distinct tickets that passed; none of them is outstanding any more. */
  ghost predicate Probing(b: State, passed: set<nat>) {
    b.phase == HalfOpen ==> |passed| == b.successes && passed !! b.tickets.Keys && forall id :: id in passed
                                                                                                ==> id <= b.nextId
  }

  lemma ProbingAdvance(p: Params, b: State, passed: set<nat>, now: int)
    requires Inv(p, b) && Probing(b, passed)
    ensures Probing(Advance(p, b, now), if b.phase == HalfOpen then passed else {})
  {
  }

  lemma ProbingProbed(p: Params, c: State, passed: set<nat>, now: int, v: Verdict, id: nat, rnd: Draw)
    requires Inv(p, c) && c.phase == HalfOpen && Probing(c, passed) && id in c.tickets
    ensures Probing(Probed(p, c, now, v, id, rnd), if v == OK then passed + {id} else passed)
  {
    assert |passed + {id}| == |passed| + 1;
  }

  lemma ProbingJudge(p: Params, b: State, passed: set<nat>, op: Op)
    requires Inv(p, b) && Probing(b, passed) && op.Judge?
    ensures Probing(Step(p, b, op), PassedNext(p, b, passed, op))
  {
    var c := Advance(p, b, op.now);
    ProbingAdvance(p, b, passed, op.now);
    AdvanceInv(p, b, op.now);
    if op.t.probe && c.phase == HalfOpen && c.epoch == op.t.epoch && op.t.id in c.tickets {
      assert b.phase == HalfOpen;
      ProbingProbed(p, c, passed, op.now, op.v, op.t.id, op.rnd);
    } else {
      assert Step(p, b, op).phase == HalfOpen ==> Step(p, b, op) == c;
    }
  }

  /** A late fault leaves a breaker half-open only by doing nothing beyond the lazy transition. */
  lemma LateHalfOpen(p: Params, b: State, now: int, t: Ticket, v: Verdict, room: bool, rnd: Draw)
    requires Sane(p) && Shaped(p, b)
    ensures RecordedLate(p, b, now, t, v, room, rnd).phase == HalfOpen
        ==> RecordedLate(p, b, now, t, v, room, rnd) == Advance(p, b, now)
  {
  }

  lemma AbortHalfOpen(p: Params, b: State, now: int, t: Ticket, okAt: int, room: bool, rnd: Draw)
    requires Sane(p) && Shaped(p, b)
    ensures Aborted(p, b, now, t, okAt, room, rnd).phase == HalfOpen
        ==> Aborted(p, b, now, t, okAt, room, rnd) == Advance(p, b, now)
  {
    if t.probe { LateHalfOpen(p, b, now, t, Fault, room, rnd); }
  }

  lemma ProbingTake(p: Params, b: State, passed: set<nat>, now: int)
    requires Inv(p, b) && Probing(b, passed)
    ensures Probing(Acquired(p, b, now).0, if b.phase == HalfOpen then passed else {})
  {
    ProbingAdvance(p, b, passed, now);
  }

  lemma ProbingStep(p: Params, b: State, passed: set<nat>, op: Op)
    requires Inv(p, b) && Probing(b, passed)
    ensures Probing(Step(p, b, op), PassedNext(p, b, passed, op))
  {
    match op
    case Touch(now) => ProbingAdvance(p, b, passed, now);
    case Take(now) => ProbingTake(p, b, passed, now);
    case GiveUp(_, t) =>
    case Judge(now, _, t, v, room, rnd) => ProbingJudge(p, b, passed, op);
    case JudgeLate(now, _, t, v, room, rnd) =>
      ProbingAdvance(p, b, passed, now);
      LateHalfOpen(p, b, now, t, v, room, rnd);
    case Abort(now, _, t, okAt, room, rnd) =>
      ProbingAdvance(p, b, passed, now);
      AbortHalfOpen(p, b, now, t, okAt, room, rnd);
    case Relax(now) =>
  }

  function After(p: Params, k: Key, ops: seq<Op>): (b: State)
    requires Sane(p)
    ensures Inv(p, b)
  {
    if ops == [] then NewInv(p, k); New(k, p)
    else
      var b := After(p, k, ops[..|ops| - 1]);
      StepInv(p, b, ops[|ops| - 1]);
      Step(p, b, ops[|ops| - 1])
  }

  function PassedIn(p: Params, k: Key, ops: seq<Op>): set<nat>
    requires Sane(p)
  {
    if ops == [] then {} else PassedNext(p, After(p, k, ops[..|ops| - 1]), PassedIn(p, k, ops[..|ops| - 1]),
        ops[|ops| - 1])
  }

  /** Somewhere in the run this ticket's success was recorded. */
  ghost predicate Succeeded(ops: seq<Op>, id: nat, epoch: nat) {
    exists i :: 0 <= i < |ops| && ops[i].Judge? && ops[i].v == OK && ops[i].t.probe && ops[i].t.id == id
        && ops[i].t.epoch == epoch
  }

  /** Each of these tickets has succeeded. */
  ghost predicate Successes(ops: seq<Op>, ids: set<nat>, epoch: nat) {
    forall id :: id in ids ==> Succeeded(ops, id, epoch)
  }

  lemma SucceededMore(ops: seq<Op>, more: seq<Op>, id: nat, epoch: nat)
    requires Succeeded(ops, id, epoch) && ops <= more
    ensures Succeeded(more, id, epoch)
  {
    var i :| 0 <= i < |ops| && ops[i].Judge? && ops[i].v == OK && ops[i].t.probe && ops[i].t.id == id
        && ops[i].t.epoch == epoch;
    assert more[i] == ops[i];
  }

  /** Over every run the passed tickets are real successes of the current period. */
  lemma {:induction false} PassedAreSuccesses(p: Params, k: Key, ops: seq<Op>)
    requires Sane(p)
    ensures Probing(After(p, k, ops), PassedIn(p, k, ops))
    ensures forall id :: id in PassedIn(p, k, ops) ==> Succeeded(ops, id, After(p, k, ops).epoch)
  {
    if ops != [] {
      var init, op := ops[..|ops| - 1], ops[|ops| - 1];
      var b, passed := After(p, k, init), PassedIn(p, k, init);
      PassedAreSuccesses(p, k, init);
      ProbingStep(p, b, passed, op);
      forall id | id in PassedIn(p, k, ops) ensures Succeeded(ops, id, After(p, k, ops).epoch) {
        SameEpoch(p, b, op);
        if id in passed { SucceededMore(init, ops, id, b.epoch); } else { assert ops[|ops| - 1].t.id == id; }
      }
    }
  }

  lemma SameEpoch(p: Params, b: State, op: Op)
    requires Inv(p, b) && b.phase == HalfOpen && Step(p, b, op).phase == HalfOpen
    ensures Step(p, b, op).epoch == b.epoch
  {
    StepMoves(p, b, op);
  }

  /** In every run from a new breaker, a breaker that closes by probing has had the required number of successes from
      distinct tickets of that very open period. */
  lemma ClosingNeedsDistinctSuccesses(p: Params, k: Key, ops: seq<Op>)
    requires Sane(p) && ops != []
    requires var b := After(p, k, ops[..|ops| - 1]); b.phase != Closed && After(p, k, ops).phase == Closed
                                                     && !ops[|ops| - 1].Relax?
    ensures var epoch := After(p, k, ops[..|ops| - 1]).epoch;
            exists ids: set<nat> :: |ids| >= p.probeSuccesses && Successes(ops, ids, epoch)
  {
    var init, op := ops[..|ops| - 1], ops[|ops| - 1];
    var b, passed := After(p, k, init), PassedIn(p, k, init);
    PassedAreSuccesses(p, k, init);
    ClosesOnlyByProbing(p, b, op);
    LastPassIsNew(p, b, passed, op);
    AllSucceeded(ops, passed, b.epoch);
    assert Successes(ops, passed + {op.t.id}, b.epoch);
  }

  lemma AllSucceeded(ops: seq<Op>, passed: set<nat>, epoch: nat)
    requires ops != [] && var op := ops[|ops| - 1]; op.Judge? && op.v == OK && op.t.probe && op.t.epoch == epoch
    requires forall id :: id in passed ==> Succeeded(ops[..|ops| - 1], id, epoch)
    ensures forall id :: id in passed + {ops[|ops| - 1].t.id} ==> Succeeded(ops, id, epoch)
  {
    forall id | id in passed + {ops[|ops| - 1].t.id} ensures Succeeded(ops, id, epoch) {
      if id in passed { SucceededMore(ops[..|ops| - 1], ops, id, epoch); } else { assert ops[|ops| - 1].t.id == id; }
    }
  }

  lemma LastPassIsNew(p: Params, b: State, passed: set<nat>, op: Op)
    requires Inv(p, b) && b.phase == HalfOpen && Probing(b, passed) && Passes(p, b, op)
    ensures op.t.id !in passed && |passed + {op.t.id}| == b.successes + 1
  {
    ProbingAdvance(p, b, passed, op.now);
  }

  // ------------------------------------------------------------------ exponential back-off over every run

  /** A run of one breaker: `bs[i]` is the breaker before operation i. */
  ghost predicate Run(p: Params, ops: seq<Op>, bs: seq<State>) {
    |bs| == |ops| + 1 && forall i :: 0 <= i < |ops| ==> StepsTo(p, ops, bs, i)
  }

  ghost predicate StepsTo(p: Params, ops: seq<Op>, bs: seq<State>, i: nat) {
    i < |ops| && i + 1 < |bs| && Inv(p, bs[i]) && bs[i + 1] == Step(p, bs[i], ops[i])
  }

  ghost function States(p: Params, k: Key, ops: seq<Op>): seq<State>
    requires Sane(p)
  {
    seq(|ops| + 1, i requires 0 <= i <= |ops| => After(p, k, ops[..i]))
  }

  lemma StatesRun(p: Params, k: Key, ops: seq<Op>)
    requires Sane(p)
    ensures Run(p, ops, States(p, k, ops)) && States(p, k, ops)[0] == New(k, p)
        && States(p, k, ops)[|ops|] == After(p, k, ops)
  {
    var bs := States(p, k, ops);
    forall i | 0 <= i < |ops| ensures StepsTo(p, ops, bs, i) { assert ops[..i + 1][..i] == ops[..i]; }
    assert ops[..|ops|] == ops;
  }

  lemma MoveAt(p: Params, ops: seq<Op>, bs: seq<State>, n: nat)
    requires Run(p, ops, bs) && n < |ops|
    ensures Sane(p) && Moves(p, bs[n], ops[n].now, bs[n + 1]) && bs[n].level <= MaxLevel(p)
        && (bs[n].phase != Closed ==> bs[n].everOpened)
  {
    assert StepsTo(p, ops, bs, n);
    StepMoves(p, bs[n], ops[n]);
  }

  /** Operation i opens a period that lasts through operation j - 1. */
  ghost predicate OpensThrough(bs: seq<State>, i: nat, j: nat) {
    i < j < |bs| && bs[i + 1].epoch != bs[i].epoch && forall n :: i < n <= j ==> InPeriod(bs[n], bs[i + 1].epoch)
  }

  lemma QuietAt(p: Params, ops: seq<Op>, bs: seq<State>, n: nat, epoch: nat)
    requires Run(p, ops, bs) && n < |ops| && InPeriod(bs[n], epoch) && InPeriod(bs[n + 1], epoch)
    ensures bs[n + 1] == bs[n]
  {
    assert StepsTo(p, ops, bs, n);
    LeavesOpenOnTime(p, bs[n], ops[n]);
  }

  lemma {:induction false} PeriodIsQuiet(p: Params, ops: seq<Op>, bs: seq<State>, i: nat, j: nat)
    requires Run(p, ops, bs) && OpensThrough(bs, i, j)
    ensures bs[j] == bs[i + 1]
    decreases j
  {
    if i + 1 < j {
      PeriodIsQuiet(p, ops, bs, i, j - 1);
      QuietAt(p, ops, bs, j - 1, bs[i + 1].epoch);
    }
  }

  /** In every run a period opened at some level lasts at least 0.8 of that level's cool-down, in whole nanoseconds,
      unless the cap is relaxed. */
  lemma PeriodLasts(p: Params, ops: seq<Op>, bs: seq<State>, i: nat, j: nat)
    requires Run(p, ops, bs) && OpensThrough(bs, i, j) && j < |ops| && !InPeriod(bs[j + 1], bs[j].epoch)
        && !ops[j].Relax?
    ensures ops[j].now - ops[i].now >= Max(1, (0.8 * BaseCoolDown(p, bs[i + 1].level) as real).Floor)
  {
    PeriodIsQuiet(p, ops, bs, i, j);
    MoveAt(p, ops, bs, i);
    assert StepsTo(p, ops, bs, j) && StepsTo(p, ops, bs, i);
    StepInv(p, bs[i], ops[i]);
    LeavesOpenOnTime(p, bs[j], ops[j]);
  }

  /** And it is over when something looks 1.2 of that cool-down, or the longest one, later. */
  lemma PeriodEnds(p: Params, ops: seq<Op>, bs: seq<State>, i: nat, j: nat)
    requires Run(p, ops, bs) && OpensThrough(bs, i, j) && j < |ops| && Looks(ops[j])
    requires var d := ops[j].now - ops[i].now; d as real >= 1.2 * BaseCoolDown(p, bs[i + 1].level) as real
                                               || d >= p.maxCoolDown
    ensures !InPeriod(bs[j + 1], bs[j].epoch)
  {
    PeriodIsQuiet(p, ops, bs, i, j);
    MoveAt(p, ops, bs, i);
    assert StepsTo(p, ops, bs, j) && StepsTo(p, ops, bs, i);
    StepInv(p, bs[i], ops[i]);
    LeavesOpenOnTime(p, bs[j], ops[j]);
  }

  /** In every run, while a breaker does not close, every new open period is one failed probe and raises the level by
      one, up to the level of the longest cool-down. */
  lemma {:induction false} FailedProbesRaiseLevel(p: Params, ops: seq<Op>, bs: seq<State>, i: nat, j: nat)
    requires Run(p, ops, bs) && i <= j < |bs| && Inv(p, bs[i]) && forall n :: i <= n <= j ==> bs[n].phase != Closed
    ensures bs[i].epoch <= bs[j].epoch && bs[j].level == Min(bs[i].level + (bs[j].epoch - bs[i].epoch), MaxLevel(p))
    decreases j
  {
    if i < j {
      FailedProbesRaiseLevel(p, ops, bs, i, j - 1);
      MoveAt(p, ops, bs, j - 1);
    }
  }

  lemma {:induction false} ClosedKeeps(p: Params, ops: seq<Op>, bs: seq<State>, i: nat, j: nat)
    requires Run(p, ops, bs) && i <= j < |bs| && forall n :: i <= n <= j ==> bs[n].phase == Closed
    ensures bs[j].level == bs[i].level && bs[j].closedAt == bs[i].closedAt && bs[j].everOpened == bs[i].everOpened
    decreases j
  {
    if i < j {
      ClosedKeeps(p, ops, bs, i, j - 1);
      MoveAt(p, ops, bs, j - 1);
    }
  }

  /** In every run, a breaker that operation i closes and operation j trips again resumes at the level it had, unless it
      stayed closed for the longest cool-down: then it starts at level 0. */
  lemma RetripResumesLevel(p: Params, ops: seq<Op>, bs: seq<State>, i: nat, j: nat)
    requires Run(p, ops, bs) && i < j < |ops| && bs[i].phase != Closed && bs[j + 1].phase != Closed
    requires forall n :: i < n <= j ==> bs[n].phase == Closed
    ensures bs[j + 1].level == if ops[j].now - ops[i].now >= p.maxCoolDown then 0 else bs[i].level
  {
    MoveAt(p, ops, bs, i);
    ClosedKeeps(p, ops, bs, i + 1, j);
    MoveAt(p, ops, bs, j);
  }
}
