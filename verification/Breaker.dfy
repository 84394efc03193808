/** One worker's circuit breaker (internal/resilience/breaker.go), with the ticket handling that
    internal/resilience/breakers.go does on it. Times and durations are nanoseconds; the random draw of
    the jitter is an input. */
module Breaker {
  import opened Prelude
  import opened Window

  datatype Phase = Closed | HalfOpen | Open

  datatype Verdict = Neutral | OK | Fault | RatioFault

  datatype Reason = NoTrip | Consecutive(streak: nat) | Ratio(faults: int)

  datatype Params = Params(consecutiveFailures: int, failureRatio: real, minVolume: int, window: int, coolDown: int,
                           maxCoolDown: int, probeConcurrency: int, probeSuccesses: int, maxOpenFraction: real,
                               headerTimeout: int)

  /** What normalize guarantees. */
  predicate Sane(p: Params) {
    && p.consecutiveFailures >= 1 && p.minVolume >= 1 && p.window >= BUCKET_WIDTH && p.coolDown > 0
    && p.maxCoolDown >= p.coolDown && p.probeConcurrency >= 1 && p.probeSuccesses >= 1
  }

  function Normalize(p: Params): (q: Params)
    ensures Sane(q) && (Sane(p) ==> q == p)
  {
    var coolDown := if p.coolDown <= 0 then 1_000_000 else p.coolDown;
    p.(consecutiveFailures := Max(p.consecutiveFailures, 1), minVolume := Max(p.minVolume, 1),
        window := Max(p.window, BUCKET_WIDTH),
       coolDown := coolDown, maxCoolDown := Max(p.maxCoolDown, coolDown),
           probeConcurrency := Max(p.probeConcurrency, 1),
       probeSuccesses := Max(p.probeSuccesses, 1))
  }

  function TicketBackstop(p: Params): int { Max(2 * p.coolDown, p.headerTimeout + 5 * BUCKET_WIDTH) }

  /** A worker registration. */
  datatype Key = Key(id: string, registered: int)

  /** The right to send one attempt. */
  datatype Ticket = Ticket(key: Key, id: nat, epoch: nat, probe: bool, valid: bool)

  datatype State = State(
    key: Key, model: string, eligible: bool, phase: Phase,
    win: Ring, streak: seq<int>, streakPos: nat, streakLen: nat, suppressed: bool,
    level: nat, everOpened: bool, closedAt: int, ejectedAt: int,
    openUntil: int, coolDown: int,
    epoch: nat, nextId: nat, tickets: map<nat, int>, successes: nat)

  function New(k: Key, p: Params): State
    requires Sane(p)
  {
    State(k, "", false, Closed, Fresh(Places(p.window)), seq(p.consecutiveFailures, _ => 0), 0, 0, false, 0, false, 0,
        0, 0, 0, 0, 0, map[], 0)
  }

  /** The rings keep their sizes. */
  predicate Shaped(p: Params, b: State) {
    |b.win| == Places(p.window) && |b.streak| == p.consecutiveFailures && 0 <= b.streakPos < |b.streak|
        && b.streakLen <= |b.streak|
  }

  // ------------------------------------------------------------------ lazy transitions

  function Outstanding(p: Params, tickets: map<nat, int>, now: int): map<nat, int> {
    map id | id in tickets && now - tickets[id] <= TicketBackstop(p) :: tickets[id]
  }

  /** Open becomes half-open when the cool-down has passed, and lost probe tickets are released. */
  function Advance(p: Params, b: State, now: int): State {
    var c := if b.phase == Open && now >= b.openUntil then b.(phase := HalfOpen, successes := 0, tickets := map[])
        else b;
    if c.phase == HalfOpen then c.(tickets := Outstanding(p, c.tickets, now)) else c
  }

  /** The loop that releases lost tickets. */
  method DropLost(p: Params, tickets: map<nat, int>, now: int) returns (left: map<nat, int>)
    ensures left == Outstanding(p, tickets, now)
  {
    left := tickets;
    var todo := tickets.Keys;
    while todo != {}
      invariant todo <= tickets.Keys && left.Keys <= tickets.Keys
      invariant forall id :: id in tickets ==> (id in left <==> id in todo || now - tickets[id] <= TicketBackstop(p))
      invariant forall id :: id in left ==> left[id] == tickets[id]
      decreases |todo|
    {
      var id :| id in todo;
      todo := todo - {id};
      if now - tickets[id] > TicketBackstop(p) { left := left - {id}; }
    }
  }

  predicate ProbeFree(p: Params, b: State) { b.phase == HalfOpen && |b.tickets| < p.probeConcurrency }

  // ------------------------------------------------------------------ cool-downs

  /** A duration doubled n times. */
  function Doubled(d: int, n: nat): int { if n == 0 then d else 2 * Doubled(d, n - 1) }

  function Pow2(n: nat): nat { if n == 0 then 1 else 2 * Pow2(n - 1) }

  function BaseCoolDown(p: Params, level: nat): int { Min(Doubled(p.coolDown, level), p.maxCoolDown) }

  lemma {:induction false} DoubledIsPower(d: int, n: nat)
    ensures Doubled(d, n) == d * Pow2(n)
  {
    if n > 0 {
      DoubledIsPower(d, n - 1);
      var x, y := Pow2(n - 1), Pow2(n);
      assert d * y == d * (2 * x) == 2 * (d * x);
    }
  }

  lemma {:induction false} DoubledGrows(d: int, i: nat, j: nat)
    requires d > 0 && i <= j
    ensures 0 < Doubled(d, i) <= Doubled(d, j) && (i < j ==> Doubled(d, i) < Doubled(d, j))
    decreases j
  {
    if j > 0 { DoubledGrows(d, if i < j then i else i - 1, j - 1); }
  }

  /** Doubling up to the cap, which no step of the loop exceeds. */
  method BaseCoolDownLoop(p: Params, level: nat) returns (d: int)
    requires Sane(p)
    ensures d == BaseCoolDown(p, level) && p.coolDown <= d <= p.maxCoolDown
  {
    d := p.coolDown;
    for i := 0 to level
      invariant d == Doubled(p.coolDown, i) && p.coolDown <= d <= p.maxCoolDown
    {
      if d >= p.maxCoolDown / 2 + p.maxCoolDown % 2 {
        DoubledGrows(p.coolDown, i + 1, level);
        return p.maxCoolDown;
      }
      d := d * 2;
    }
  }

  /** The level at which a cool-down is first the cap; the search for it ends. */
  ghost predicate IsMaxLevel(p: Params, l: nat) {
    BaseCoolDown(p, l) == p.maxCoolDown && forall k: nat :: k < l ==> BaseCoolDown(p, k) < p.maxCoolDown
  }

  method MaxLevelLoop(p: Params) returns (l: nat)
    requires Sane(p)
    ensures l == MaxLevel(p) && IsMaxLevel(p, l)
  {
    l := 0;
    MaxLevelIs(p);
    while true
      invariant forall k: nat :: k < l ==> BaseCoolDown(p, k) < p.maxCoolDown
      invariant l <= MaxLevel(p)
      decreases MaxLevel(p) - l
    {
      var d := BaseCoolDownLoop(p, l);
      if d >= p.maxCoolDown { break; }
      l := l + 1;
    }
  }

  function LevelFrom(p: Params, l: nat): (r: nat)
    requires Sane(p)
    ensures r >= l
    decreases p.maxCoolDown - BaseCoolDown(p, l)
  {
    if BaseCoolDown(p, l) >= p.maxCoolDown then l
    else
      assert BaseCoolDown(p, l + 1) > BaseCoolDown(p, l) by { DoubledGrows(p.coolDown, l, l + 1); }
      LevelFrom(p, l + 1)
  }

  function MaxLevel(p: Params): nat
    requires Sane(p)
  {
    LevelFrom(p, 0)
  }

  lemma {:induction false} LevelFromIs(p: Params, l: nat)
    requires Sane(p) && forall k: nat :: k < l ==> BaseCoolDown(p, k) < p.maxCoolDown
    ensures IsMaxLevel(p, LevelFrom(p, l))
    decreases p.maxCoolDown - BaseCoolDown(p, l)
  {
    if BaseCoolDown(p, l) < p.maxCoolDown {
      DoubledGrows(p.coolDown, l, l + 1);
      LevelFromIs(p, l + 1);
    }
  }

  lemma MaxLevelIs(p: Params)
    requires Sane(p)
    ensures IsMaxLevel(p, MaxLevel(p))
  {
    LevelFromIs(p, 0);
  }

  /** Levels from the maximal one on all have the longest cool-down. */
  lemma CappedFromMaxLevel(p: Params, l: nat)
    requires Sane(p)
    ensures BaseCoolDown(p, l) == p.maxCoolDown <==> l >= MaxLevel(p)
  {
    MaxLevelIs(p);
    if l >= MaxLevel(p) { DoubledGrows(p.coolDown, MaxLevel(p), l); }
  }

  // ------------------------------------------------------------------ transitions

  /** The level of a new open period. */
  function NextLevel(p: Params, b: State, now: int, fromProbe: bool): nat
    requires Sane(p)
  {
    if fromProbe then (if b.level < MaxLevel(p) then b.level + 1 else b.level)
    else if !b.everOpened || now - b.closedAt >= p.maxCoolDown then 0
    else b.level
  }

  /** What the random source gives. */
  type Draw = r: real | 0.0 <= r < 1.0 witness 0.0

  function Factor(rnd: Draw): (f: real)
    ensures 0.8 <= f <= 1.2
  {
    1.0 + 0.2 * (2.0 * rnd - 1.0)
  }

  function Spread(base: int, factor: real): real { base as real * factor }

  /** Whole nanoseconds, at least one and at most the cap. */
  function Clamped(x: real, most: int): int { Min(Max(x.Floor, 1), most) }

  /** The cool-down of an open period: the base spread by a factor from 0.8 to 1.2, and clamped. */
  function Jittered(p: Params, level: nat, rnd: Draw): int {
    Clamped(Spread(BaseCoolDown(p, level), Factor(rnd)), p.maxCoolDown)
  }

  /** Within a fifth of the base of that level, up to whole nanoseconds, and never above the cap. */
  predicate CoolDownFits(p: Params, level: nat, d: int) {
    var base := BaseCoolDown(p, level) as real;
    1 <= d <= p.maxCoolDown && (0.8 * base).Floor <= d && d as real <= 1.2 * base
  }

  lemma ProductBounds(a: real, low: real, x: real, high: real)
    requires 0.0 <= a && low <= x <= high
    ensures low * a <= a * x <= high * a
  {
  }

  lemma SpreadBounds(base: int, factor: real)
    requires 0 <= base && 0.8 <= factor <= 1.2
    ensures 0.8 * base as real <= Spread(base, factor) <= 1.2 * base as real
  {
    ProductBounds(base as real, 0.8, factor, 1.2);
  }

  lemma ClampFits(base: int, most: int, x: real)
    requires 1 <= base <= most && 0.8 * base as real <= x <= 1.2 * base as real
    ensures 1 <= Clamped(x, most) <= most && (0.8 * base as real).Floor <= Clamped(x, most)
        && Clamped(x, most) as real <= 1.2 * base as real
  {
    var low := (0.8 * base as real).Floor;
    assert low <= x.Floor && low <= base;
    assert x.Floor as real <= x;
  }

  lemma JitteredFits(p: Params, level: nat, rnd: Draw)
    requires Sane(p)
    ensures CoolDownFits(p, level, Jittered(p, level, rnd))
  {
    var base := BaseCoolDown(p, level);
    assert 1 <= base <= p.maxCoolDown by { DoubledGrows(p.coolDown, 0, level); }
    var f := Factor(rnd);
    SpreadBounds(base, f);
    ClampFits(base, p.maxCoolDown, Spread(base, f));
  }

  function Opened(p: Params, b: State, now: int, fromProbe: bool, rnd: Draw): State
    requires Sane(p)
  {
    var level := NextLevel(p, b, now, fromProbe);
    var d := Jittered(p, level, rnd);
    b.(level := level, everOpened := true, ejectedAt := if fromProbe then b.ejectedAt else now,
       phase := Open, coolDown := d, openUntil := now + d, epoch := b.epoch + 1, tickets := map[], successes := 0,
           suppressed := false)
  }

  function Shut(b: State, now: int): State {
    b.(phase := Closed, closedAt := now, tickets := map[], successes := 0, win := Fresh(|b.win|), streakLen := 0,
        streakPos := 0,
       suppressed := false)
  }

  // ------------------------------------------------------------------ counting outcomes

  /** The window and the streak after one outcome. */
  function Counted(b: State, now: int, v: Verdict): State
    requires |b.streak| > 0 && b.streakPos < |b.streak|
  {
    match v
    case Neutral => b
    case OK => b.(win := Add(b.win, now, now, true, 1), streakLen := 0, streakPos := 0)
    case Fault =>
      b.(win := Add(Add(b.win, now, now, true, 1), now, now, false, 1), streak := b.streak[b.streakPos := now],
         streakPos := (b.streakPos + 1) % |b.streak|, streakLen := if b.streakLen < |b.streak| then b.streakLen + 1
             else b.streakLen)
    case RatioFault => b.(win := Add(Add(b.win, now, now, true, 1), now, now, false, 1))
  }

  function TripReason(p: Params, b: State, now: int, v: Verdict): Reason
    requires |b.streak| > 0 && b.streakPos < |b.streak|
  {
    if v == Neutral then NoTrip
    else if v != OK && b.streakLen == |b.streak| && now - b.streak[b.streakPos] <= p.window
        then Consecutive(b.streakLen)
    else
      var (total, faults) := Sum(b.win, now);
      if p.failureRatio > 0.0 && total >= p.minVolume && total > 0 && faults as real >= p.failureRatio * total as real
      then Ratio(faults) else NoTrip
  }

  /** What follows from the reason to trip, if there is one. */
  function Tripped(p: Params, c: State, reason: Reason, now: int, room: bool, rnd: Draw): State
    requires Sane(p)
  {
    if reason == NoTrip then c.(suppressed := false)
    else if !room then c.(suppressed := true)
    else Opened(p, c, now, false, rnd)
  }

  /** countClosed: count the outcome and trip if a rule says so and the ejection cap has room. */
  function CountClosed(p: Params, b: State, now: int, v: Verdict, room: bool, rnd: Draw): State
    requires Sane(p) && Shaped(p, b)
  {
    if b.phase != Closed || v == Neutral then b
    else
      var c := Counted(b, now, v);
      Tripped(p, c, TripReason(p, c, now, v), now, room, rnd)
  }

  // ------------------------------------------------------------------ tickets

  function Acquired(p: Params, b: State, now: int): (State, Option<Ticket>) {
    var c := Advance(p, b, now);
    if c.phase == Closed then (c, Some(Ticket(c.key, 0, c.epoch, false, true)))
    else if ProbeFree(p, c) then
      (c.(nextId := c.nextId + 1, tickets := c.tickets[c.nextId + 1 := now]),
          Some(Ticket(c.key, c.nextId + 1, c.epoch, true, true)))
    else (c, None)
  }

  function Released(b: State, t: Ticket): State {
    if t.probe && b.phase == HalfOpen && b.epoch == t.epoch then b.(tickets := b.tickets - {t.id}) else b
  }

  /** A probe's verdict. */
  function Probed(p: Params, b: State, now: int, v: Verdict, id: nat, rnd: Draw): State
    requires Sane(p)
  {
    var c := b.(tickets := b.tickets - {id});
    match v
    case Neutral => c
    case OK =>
      var d := c.(successes := c.successes + 1);
      if d.successes >= p.probeSuccesses then Shut(d, now) else d
    case _ => Opened(p, c, now, true, rnd)
  }

  function Recorded(p: Params, b: State, now: int, t: Ticket, v: Verdict, room: bool, rnd: Draw): State
    requires Sane(p) && Shaped(p, b)
  {
    var c := Advance(p, b, now);
    if t.probe then
      if c.phase != HalfOpen || c.epoch != t.epoch || t.id !in c.tickets then c else Probed(p, c, now, v, t.id, rnd)
    else if c.epoch != t.epoch then c
    else CountClosed(p, c, now, v, room, rnd)
  }

  function RecordedLate(p: Params, b: State, now: int, t: Ticket, v: Verdict, room: bool, rnd: Draw): State
    requires Sane(p) && Shaped(p, b)
  {
    var c := Advance(p, b, now);
    if c.epoch != t.epoch then c
    else if t.probe && c.phase == HalfOpen then Opened(p, c, now, true, rnd)
    else CountClosed(p, c, now, v, room, rnd)
  }

  function Aborted(p: Params, b: State, now: int, t: Ticket, okAt: int, room: bool, rnd: Draw): State
    requires Sane(p) && Shaped(p, b)
  {
    if t.probe then RecordedLate(p, b, now, t, Fault, room, rnd)
    else
      var c := Advance(p, b, now);
      if c.epoch != t.epoch || c.phase != Closed then c
      else CountClosed(p, c.(win := Add(c.win, okAt, now, true, -1)), now, Fault, room, rnd)
  }
}
