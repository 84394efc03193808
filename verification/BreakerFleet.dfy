/** One worker's breaker inside the set: registry views and pruning create, drop and relax breakers
    (internal/resilience/breakers.go), so what is true of a lone breaker holds of a key from the moment its breaker is
    added until it is dropped, and is forgotten when the same registration is added again. */
module BreakerFleet {
  import opened Prelude
  import opened Window
  import opened Breaker
  import opened BreakerProtocol
  import opened BreakerHistory
  import opened Breakers

  // ------------------------------------------------------------------ which breaker survives

  /** Equal up to the registry's account of the worker. */
  predicate Alike(a: State, b: State) { a == b.(eligible := a.eligible, model := a.model) }

  /** No other registration of this worker is in the view. */
  predicate Undisputed(members: seq<Member>, k: Key) { forall m :: m in members && m.key.id == k.id ==> m.key == k }

  /** The key's breaker is still the same one after the operation. */
  predicate Retains(f: Fleet, op: FleetOp, k: Key) {
    Knows(f, k) && match op
                   case Sync(_, members) => k.id in Ids(members) && Undisputed(members, k)
                   case Prune(_, keep) => k in keep
                   case On(_, _) => true
  }

  /** The enforcement after a view or a pruning, which leads from f to g, closes the key's breaker. */
  predicate Relaxes(f: Fleet, op: FleetOp, g: Fleet, k: Key) {
    !op.On? && Retains(f, op, k) && f[k.id].phase != Closed && k.id in g && g[k.id].phase == Closed
  }

  /** What an operation that leads from f to g does to the key's breaker, as operations of a lone breaker. */
  function OpOf(p: Params, f: Fleet, op: FleetOp, g: Fleet, k: Key): seq<Op> {
    if op.On? then (if op.key == k && Knows(f, k) && !op.op.Relax? then [WithRoom(op.op, Room(p, f, f[k.id]))] else [])
    else if Relaxes(f, op, g, k) then [Relax(op.now)] else []
  }

  lemma {:induction false} JoinedOf(p: Params, f: Fleet, members: seq<Member>, k: Key)
    requires Sane(p)
    ensures Undisputed(members, k) && Knows(f, k) ==> Knows(Joined(p, f, members), k)
                                                      && Alike(Joined(p, f, members)[k.id], f[k.id])
    ensures !(Undisputed(members, k) && Knows(f, k)) && Knows(Joined(p, f, members), k)
        ==> Alike(Joined(p, f, members)[k.id], New(k, p))
  {
    if members != [] {
      var init, last := members[..|members| - 1], members[|members| - 1];
      JoinedOf(p, f, init, k);
      assert members == init + [last];
    }
  }

  /** Enforcement leaves a breaker alone or closes one that was ejected. */
  lemma EnforcedOf(p: Params, f: Fleet, models: set<string>, now: int, id: string)
    requires id in f
    ensures id in Enforced(p, f, models, now)
    ensures Enforced(p, f, models, now)[id] == f[id]
        || (f[id].phase != Closed && Enforced(p, f, models, now)[id] == Shut(f[id], now))
  {
  }

  lemma SyncKept(p: Params, f: Fleet, members: seq<Member>, now: int, k: Key)
    requires Sane(p) && Retains(f, Sync(now, members), k)
    ensures var g := Synced(p, f, members, now);
            Knows(g, k) && (Alike(g[k.id], f[k.id]) || (f[k.id].phase != Closed && Alike(g[k.id], Shut(f[k.id], now))))
  {
    JoinedOf(p, f, members, k);
    var g := Joined(p, f, members);
    var kept: Fleet := map id | id in g && id in Ids(members) :: g[id];
    EnforcedOf(p, kept, Models(kept), now, k.id);
  }

  lemma SyncAdded(p: Params, f: Fleet, members: seq<Member>, now: int, k: Key)
    requires Sane(p) && !Retains(f, Sync(now, members), k) && Knows(Synced(p, f, members, now), k)
    ensures Alike(Synced(p, f, members, now)[k.id], New(k, p))
  {
    JoinedOf(p, f, members, k);
    var g := Joined(p, f, members);
    var kept: Fleet := map id | id in g && id in Ids(members) :: g[id];
    EnforcedOf(p, kept, Models(kept), now, k.id);
  }

  lemma PruneKept(p: Params, f: Fleet, keep: seq<Key>, now: int, k: Key)
    requires Sane(p) && Retains(f, Prune(now, keep), k)
    ensures var g := Pruned(p, f, keep, now);
            Knows(g, k) && (g[k.id] == f[k.id] || (f[k.id].phase != Closed && g[k.id] == Shut(f[k.id], now)))
  {
    var kept: Fleet := map id | id in f && f[id].key in keep :: f[id];
    EnforcedOf(p, kept, Models(kept), now, k.id);
  }

  lemma PruneDropped(p: Params, f: Fleet, keep: seq<Key>, now: int, k: Key)
    requires Sane(p) && !Retains(f, Prune(now, keep), k)
    ensures !Knows(Pruned(p, f, keep, now), k)
  {
    var kept: Fleet := map id | id in f && f[id].key in keep :: f[id];
    if k.id in kept { EnforcedOf(p, kept, Models(kept), now, k.id); }
  }

  // ------------------------------------------------------------------ one operation of the set, seen from a key

  ghost predicate Acts(p: Params, b: State, ops: seq<Op>, c: State)
    requires Sane(p) && Shaped(p, b)
  {
    if ops == [] then Alike(c, b) else Alike(c, Step(p, b, ops[0]))
  }

  lemma ActsByEnforcing(p: Params, f: Fleet, op: FleetOp, k: Key)
    requires Sane(p) && Filed(p, f) && !op.On? && Retains(f, op, k) && Knows(FleetStep(p, f, op), k)
    requires var b, c := f[k.id], FleetStep(p, f, op)[k.id];
        Alike(c, b) || (b.phase != Closed && Alike(c, Shut(b, op.now)))
    ensures Acts(p, f[k.id], OpOf(p, f, op, FleetStep(p, f, op), k), FleetStep(p, f, op)[k.id])
  {
    ActsEither(p, f[k.id], FleetStep(p, f, op)[k.id], op.now);
  }

  lemma ActsEither(p: Params, b: State, c: State, now: int)
    requires Sane(p) && Shaped(p, b) && (Alike(c, b) || (b.phase != Closed && Alike(c, Shut(b, now))))
    ensures Acts(p, b, if b.phase != Closed && c.phase == Closed then [Relax(now)] else [], c)
  {
  }

  lemma SyncProjects(p: Params, f: Fleet, op: FleetOp, k: Key)
    requires Sane(p) && Filed(p, f) && op.Sync? && Retains(f, op, k)
    ensures Knows(FleetStep(p, f, op), k)
        && Acts(p, f[k.id], OpOf(p, f, op, FleetStep(p, f, op), k), FleetStep(p, f, op)[k.id])
  {
    SyncKept(p, f, op.members, op.now, k);
    ActsByEnforcing(p, f, op, k);
  }

  lemma PruneProjects(p: Params, f: Fleet, op: FleetOp, k: Key)
    requires Sane(p) && Filed(p, f) && op.Prune? && Retains(f, op, k)
    ensures Knows(FleetStep(p, f, op), k)
        && Acts(p, f[k.id], OpOf(p, f, op, FleetStep(p, f, op), k), FleetStep(p, f, op)[k.id])
  {
    PruneKept(p, f, op.keep, op.now, k);
    ActsByEnforcing(p, f, op, k);
  }

  /** A breaker that survives takes exactly the projected operation. */
  lemma StepProjects(p: Params, f: Fleet, op: FleetOp, k: Key)
    requires Sane(p) && Filed(p, f) && Retains(f, op, k)
    ensures Knows(FleetStep(p, f, op), k)
        && Acts(p, f[k.id], OpOf(p, f, op, FleetStep(p, f, op), k), FleetStep(p, f, op)[k.id])
  {
    if op.Sync? {
      SyncProjects(p, f, op, k);
    } else if op.Prune? {
      PruneProjects(p, f, op, k);
    } else {
      OnProjects(p, f, op.key, op.op, k);
    }
  }

  /** A breaker that is known without having survived is new. */
  lemma KnownIsKeptOrNew(p: Params, f: Fleet, op: FleetOp, k: Key)
    requires Sane(p) && Filed(p, f) && !Retains(f, op, k) && Knows(FleetStep(p, f, op), k)
    ensures op.Sync? && Alike(FleetStep(p, f, op)[k.id], New(k, p))
  {
    if op.Sync? {
      SyncAdded(p, f, op.members, op.now, k);
    } else if op.Prune? {
      PruneDropped(p, f, op.keep, op.now, k);
    } else {
      OnProjects(p, f, op.key, op.op, k);
    }
  }

  lemma OnProjects(p: Params, f: Fleet, key: Key, o: Op, k: Key)
    requires Sane(p) && Filed(p, f)
    ensures var g := OnBreaker(p, f, key, o);
            && (Knows(f, k) ==> Knows(g, k) && Acts(p, f[k.id], OpOf(p, f, On(key, o), g, k), g[k.id]))
            && (!Knows(f, k) ==> !Knows(g, k))
  {
    if Knows(f, key) && !o.Relax? { StepStaysPut(p, f[key.id], WithRoom(o, Room(p, f, f[key.id]))); }
  }

  // ------------------------------------------------------------------ a breaker does not look at its registry data

  lemma AlikeAdvance(p: Params, a: State, b: State, now: int)
    requires Alike(a, b)
    ensures Alike(Advance(p, a, now), Advance(p, b, now))
  {
    assert a.tickets == b.tickets && a.phase == b.phase;
    if b.phase == Closed || (b.phase == Open && now < b.openUntil) {
      assert Advance(p, a, now) == a && Advance(p, b, now) == b;
    }
  }

  lemma AlikeOpened(p: Params, a: State, b: State, now: int, fromProbe: bool, rnd: Draw)
    requires Sane(p) && Alike(a, b)
    ensures Alike(Opened(p, a, now, fromProbe, rnd), Opened(p, b, now, fromProbe, rnd))
  {
    assert NextLevel(p, a, now, fromProbe) == NextLevel(p, b, now, fromProbe);
  }

  lemma AlikeCounted(a: State, b: State, now: int, v: Verdict)
    requires |b.streak| > 0 && b.streakPos < |b.streak| && Alike(a, b)
    ensures Alike(Counted(a, now, v), Counted(b, now, v))
  {
  }

  lemma AlikeTrip(p: Params, a: State, b: State, now: int, v: Verdict)
    requires |b.streak| > 0 && b.streakPos < |b.streak| && Alike(a, b)
    ensures TripReason(p, a, now, v) == TripReason(p, b, now, v)
  {
  }

  lemma AlikeTripped(p: Params, a: State, b: State, reason: Reason, now: int, room: bool, rnd: Draw)
    requires Sane(p) && Alike(a, b)
    ensures Alike(Tripped(p, a, reason, now, room, rnd), Tripped(p, b, reason, now, room, rnd))
  {
    AlikeOpened(p, a, b, now, false, rnd);
  }

  lemma AlikeCount(p: Params, a: State, b: State, now: int, v: Verdict, room: bool, rnd: Draw)
    requires Sane(p) && Shaped(p, b) && Alike(a, b)
    ensures Alike(CountClosed(p, a, now, v, room, rnd), CountClosed(p, b, now, v, room, rnd))
  {
    if b.phase == Closed && v != Neutral {
      var c, d := Counted(a, now, v), Counted(b, now, v);
      AlikeCounted(a, b, now, v);
      AlikeTrip(p, c, d, now, v);
      AlikeTripped(p, c, d, TripReason(p, d, now, v), now, room, rnd);
    }
  }

  lemma AlikeProbed(p: Params, a: State, b: State, now: int, v: Verdict, id: nat, rnd: Draw)
    requires Sane(p) && Alike(a, b)
    ensures Alike(Probed(p, a, now, v, id, rnd), Probed(p, b, now, v, id, rnd))
  {
    AlikeOpened(p, a.(tickets := a.tickets - {id}), b.(tickets := b.tickets - {id}), now, true, rnd);
  }

  lemma AlikeJudge(p: Params, a: State, b: State, now: int, t: Ticket, v: Verdict, room: bool, rnd: Draw)
    requires Sane(p) && Shaped(p, b) && Alike(a, b)
    ensures Alike(Recorded(p, a, now, t, v, room, rnd), Recorded(p, b, now, t, v, room, rnd))
  {
    var c, d := Advance(p, a, now), Advance(p, b, now);
    AlikeAdvance(p, a, b, now);
    AlikeCount(p, c, d, now, v, room, rnd);
    AlikeProbed(p, c, d, now, v, t.id, rnd);
  }

  lemma AlikeLate(p: Params, a: State, b: State, now: int, t: Ticket, v: Verdict, room: bool, rnd: Draw)
    requires Sane(p) && Shaped(p, b) && Alike(a, b)
    ensures Alike(RecordedLate(p, a, now, t, v, room, rnd), RecordedLate(p, b, now, t, v, room, rnd))
  {
    var c, d := Advance(p, a, now), Advance(p, b, now);
    AlikeAdvance(p, a, b, now);
    AlikeCount(p, c, d, now, v, room, rnd);
    AlikeOpened(p, c, d, now, true, rnd);
  }

  lemma AlikeAbort(p: Params, a: State, b: State, now: int, t: Ticket, okAt: int, room: bool, rnd: Draw)
    requires Sane(p) && Shaped(p, b) && Alike(a, b)
    ensures Alike(Aborted(p, a, now, t, okAt, room, rnd), Aborted(p, b, now, t, okAt, room, rnd))
  {
    if t.probe {
      AlikeLate(p, a, b, now, t, Fault, room, rnd);
    } else {
      var c, d := Advance(p, a, now), Advance(p, b, now);
      AlikeAdvance(p, a, b, now);
      AlikeCount(p, c.(win := Add(c.win, okAt, now, true, -1)), d.(win := Add(d.win, okAt, now, true, -1)), now, Fault,
          room, rnd);
    }
  }

  lemma AlikeTake(p: Params, a: State, b: State, now: int)
    requires Alike(a, b)
    ensures Alike(Acquired(p, a, now).0, Acquired(p, b, now).0)
  {
    AlikeAdvance(p, a, b, now);
  }

  lemma AlikeQuiet(p: Params, a: State, b: State, op: Op)
    requires Sane(p) && Shaped(p, b) && Alike(a, b) && (op.GiveUp? || op.Relax?)
    ensures Alike(Step(p, a, op), Step(p, b, op))
  {
  }

  lemma AlikeSpoken(p: Params, a: State, b: State, op: Op)
    requires Sane(p) && Shaped(p, b) && Alike(a, b) && (op.Judge? || op.JudgeLate? || op.Abort?)
    ensures Alike(Step(p, a, op), Step(p, b, op))
  {
    if op.Judge? { AlikeJudge(p, a, b, op.now, op.t, op.v, op.room, op.rnd); }
    else if op.JudgeLate? { AlikeLate(p, a, b, op.now, op.t, op.v, op.room, op.rnd); }
    else { AlikeAbort(p, a, b, op.now, op.t, op.okAt, op.room, op.rnd); }
  }

  lemma AlikeStep(p: Params, a: State, b: State, op: Op)
    requires Sane(p) && Shaped(p, b) && Alike(a, b)
    ensures Alike(Step(p, a, op), Step(p, b, op))
  {
    if op.Touch? { AlikeAdvance(p, a, b, op.now); }
    else if op.Take? { AlikeTake(p, a, b, op.now); }
    else if op.GiveUp? || op.Relax? { AlikeQuiet(p, a, b, op); }
    else { AlikeSpoken(p, a, b, op); }
  }

  // ------------------------------------------------------------------ runs of the set

  /** A run of the set: `fs[i]` is the set before operation i. */
  ghost predicate FleetRun(p: Params, ops: seq<FleetOp>, fs: seq<Fleet>) {
    && Sane(p) && |fs| == |ops| + 1 && fs[0] == map[]
    && forall i :: 0 <= i < |ops| ==> FleetStepsTo(p, ops, fs, i)
  }

  ghost predicate FleetStepsTo(p: Params, ops: seq<FleetOp>, fs: seq<Fleet>, i: nat)
    requires Sane(p)
  {
    i < |ops| && i + 1 < |fs| && Filed(p, fs[i]) && Filed(p, fs[i + 1]) && fs[i + 1] == FleetStep(p, fs[i], ops[i])
  }

  ghost function FleetStates(p: Params, ops: seq<FleetOp>): seq<Fleet>
    requires Sane(p)
  {
    seq(|ops| + 1, i requires 0 <= i <= |ops| => FleetAfter(p, ops[..i]))
  }

  lemma FleetAfterStep(p: Params, ops: seq<FleetOp>, i: nat)
    requires Sane(p) && i < |ops|
    ensures FleetAfter(p, ops[..i + 1]) == FleetStep(p, FleetAfter(p, ops[..i]), ops[i])
  {
    assert ops[..i + 1][..i] == ops[..i];
  }

  /** Every sequence of operations has its run. */
  lemma FleetStatesRun(p: Params, ops: seq<FleetOp>)
    requires Sane(p)
    ensures FleetRun(p, ops, FleetStates(p, ops)) && FleetStates(p, ops)[|ops|] == FleetAfter(p, ops)
  {
    var fs := FleetStates(p, ops);
    forall i | 0 <= i < |ops| ensures FleetStepsTo(p, ops, fs, i) { FleetAfterStep(p, ops, i); }
    assert ops[..|ops|] == ops;
  }

  /** The operation that step n is for the key's breaker, if any. */
  function OpAt(p: Params, ops: seq<FleetOp>, fs: seq<Fleet>, k: Key, n: nat): seq<Op>
    requires n < |ops| && n + 1 < |fs|
  {
    OpOf(p, fs[n], ops[n], fs[n + 1], k)
  }

  predicate RelaxedAt(ops: seq<FleetOp>, fs: seq<Fleet>, k: Key, n: nat)
    requires n < |ops| && n + 1 < |fs|
  {
    Relaxes(fs[n], ops[n], fs[n + 1], k)
  }

  predicate RetainedAt(ops: seq<FleetOp>, fs: seq<Fleet>, k: Key, n: nat)
    requires n < |ops| && n < |fs|
  {
    Retains(fs[n], ops[n], k)
  }

  /** Step n as the key sees it. */
  lemma ProjectsAt(p: Params, ops: seq<FleetOp>, fs: seq<Fleet>, k: Key, n: nat)
    requires FleetRun(p, ops, fs) && n < |ops|
    ensures RetainedAt(ops, fs, k, n) ==>
              Knows(fs[n], k) && Inv(p, fs[n][k.id]) && Knows(fs[n + 1], k)
                  && Acts(p, fs[n][k.id], OpAt(p, ops, fs, k, n), fs[n + 1][k.id])
    ensures !RetainedAt(ops, fs, k, n) && Knows(fs[n + 1], k) ==> ops[n].Sync? && Alike(fs[n + 1][k.id], New(k, p))
  {
    assert FleetStepsTo(p, ops, fs, n);
    if RetainedAt(ops, fs, k, n) {
      StepProjects(p, fs[n], ops[n], k);
    } else if Knows(fs[n + 1], k) {
      KnownIsKeptOrNew(p, fs[n], ops[n], k);
    }
  }

  /** The operations on the key's breaker since it was last added. */
  function KeyOps(p: Params, ops: seq<FleetOp>, fs: seq<Fleet>, k: Key, n: nat): seq<Op>
    requires n <= |ops| < |fs|
  {
    if n == 0 || !RetainedAt(ops, fs, k, n - 1) then [] else KeyOps(p, ops, fs, k, n - 1) + OpAt(p, ops, fs, k, n - 1)
  }

  lemma AfterOne(p: Params, k: Key, ops: seq<Op>, op: Op)
    requires Sane(p)
    ensures After(p, k, ops + [op]) == Step(p, After(p, k, ops), op)
  {
    assert (ops + [op])[..|ops|] == ops;
  }

  lemma ActsAfter(p: Params, k: Key, before: seq<Op>, b: State, o: seq<Op>, c: State)
    requires Sane(p) && Shaped(p, b) && Alike(b, After(p, k, before)) && |o| <= 1 && Acts(p, b, o, c)
    ensures Alike(c, After(p, k, before + o))
  {
    if o != [] {
      assert o == [o[0]];
      AlikeStep(p, b, After(p, k, before), o[0]);
      AfterOne(p, k, before, o[0]);
      AlikeTrans(c, Step(p, b, o[0]), After(p, k, before + o));
    } else {
      assert before + o == before;
      AlikeTrans(c, b, After(p, k, before));
    }
  }

  lemma AlikeTrans(a: State, b: State, c: State)
    requires Alike(a, b) && Alike(b, c)
    ensures Alike(a, c)
  {
  }

  /** In every run of the set, the breaker of a key is the lone breaker after that key's operations since it was
      added, with the cap's own answer to each trip, and relaxed exactly where the enforcement closes it. */
  lemma {:induction false} FleetProjects(p: Params, ops: seq<FleetOp>, fs: seq<Fleet>, k: Key, n: nat)
    requires FleetRun(p, ops, fs) && n <= |ops| && Knows(fs[n], k)
    ensures Alike(fs[n][k.id], After(p, k, KeyOps(p, ops, fs, k, n)))
  {
    if RetainedAt(ops, fs, k, n - 1) {
      FleetProjects(p, ops, fs, k, n - 1);
      ProjectsKept(p, ops, fs, k, n - 1);
    } else {
      ProjectsAt(p, ops, fs, k, n - 1);
    }
  }

  lemma ProjectsKept(p: Params, ops: seq<FleetOp>, fs: seq<Fleet>, k: Key, n: nat)
    requires FleetRun(p, ops, fs) && n < |ops| && RetainedAt(ops, fs, k, n) && Knows(fs[n], k)
    requires Alike(fs[n][k.id], After(p, k, KeyOps(p, ops, fs, k, n)))
    ensures Knows(fs[n + 1], k) && Alike(fs[n + 1][k.id], After(p, k, KeyOps(p, ops, fs, k, n + 1)))
  {
    ProjectsAt(p, ops, fs, k, n);
    ActsAfter(p, k, KeyOps(p, ops, fs, k, n), fs[n][k.id], OpAt(p, ops, fs, k, n), fs[n + 1][k.id]);
  }

  // ------------------------------------------------------------------ the open period in the set

  /** Step n neither relaxes the key's breaker nor looks at it at or after this time. */
  ghost predicate TooEarly(p: Params, ops: seq<FleetOp>, fs: seq<Fleet>, k: Key, n: nat, until: int)
    requires FleetRun(p, ops, fs) && n < |ops|
  {
    !RelaxedAt(ops, fs, k, n) && (ops[n].On? && ops[n].key == k && Looks(ops[n].op) ==> ops[n].op.now < until)
  }

  lemma HoldsAt(p: Params, ops: seq<FleetOp>, fs: seq<Fleet>, k: Key, n: nat)
    requires FleetRun(p, ops, fs) && n < |ops| && RetainedAt(ops, fs, k, n) && Knows(fs[n], k)
        && fs[n][k.id].phase == Open
    requires TooEarly(p, ops, fs, k, n, fs[n][k.id].openUntil)
    ensures Knows(fs[n + 1], k) && Alike(fs[n + 1][k.id], fs[n][k.id])
  {
    ProjectsAt(p, ops, fs, k, n);
    var o := OpAt(p, ops, fs, k, n);
    if o != [] {
      LeavesOpenOnTime(p, fs[n][k.id], o[0]);
      WithRoomLooks(ops[n].op, Room(p, fs[n], fs[n][k.id]));
    }
  }

  lemma WithRoomLooks(op: Op, room: bool)
    ensures WithRoom(op, room).now == op.now && Looks(WithRoom(op, room)) == Looks(op)
        && WithRoom(op, room).Relax? == op.Relax?
  {
  }

  lemma {:induction false} HoldsThrough(p: Params, ops: seq<FleetOp>, fs: seq<Fleet>, k: Key, i: nat, n: nat)
    requires FleetRun(p, ops, fs) && i <= n <= |ops| && Knows(fs[i], k) && fs[i][k.id].phase == Open && Knows(fs[n], k)
    requires forall m :: i <= m < n ==> TooEarly(p, ops, fs, k, m, fs[i][k.id].openUntil)
    requires forall m :: i <= m < n && Knows(fs[m + 1], k) ==> RetainedAt(ops, fs, k, m)
    ensures Alike(fs[n][k.id], fs[i][k.id])
    decreases n
  {
    if i < n {
      assert RetainedAt(ops, fs, k, n - 1);
      HoldsThrough(p, ops, fs, k, i, n - 1);
      HoldsAt(p, ops, fs, k, n - 1);
      AlikeTrans(fs[n][k.id], fs[n - 1][k.id], fs[i][k.id]);
    }
  }

  /** In every run of the set, before its cool-down is over and unless the cap is relaxed, a key's breaker stays in
      its open period as long as it is known, if and only if it is not dropped and added again. */
  lemma FleetHoldsOpen(p: Params, ops: seq<FleetOp>, fs: seq<Fleet>, k: Key, i: nat)
    requires FleetRun(p, ops, fs) && i <= |ops| && Knows(fs[i], k) && fs[i][k.id].phase == Open
    requires forall n :: i <= n < |ops| ==> TooEarly(p, ops, fs, k, n, fs[i][k.id].openUntil)
    ensures (forall n :: i <= n < |fs| && Knows(fs[n], k) ==> InPeriod(fs[n][k.id], fs[i][k.id].epoch))
       <==> (forall n :: i <= n < |ops| && Knows(fs[n + 1], k) ==> RetainedAt(ops, fs, k, n))
  {
    if forall n :: i <= n < |ops| && Knows(fs[n + 1], k) ==> RetainedAt(ops, fs, k, n) {
      forall n | i <= n < |fs| && Knows(fs[n], k) ensures InPeriod(fs[n][k.id], fs[i][k.id].epoch) {
        HoldsThrough(p, ops, fs, k, i, n);
      }
    } else {
      var n :| i <= n < |ops| && Knows(fs[n + 1], k) && !RetainedAt(ops, fs, k, n);
      ProjectsAt(p, ops, fs, k, n);
      assert !InPeriod(fs[n + 1][k.id], fs[i][k.id].epoch);
    }
  }

  /** Step i opens a period of the key's breaker that lasts through step j - 1. */
  ghost predicate FleetOpensThrough(ops: seq<FleetOp>, fs: seq<Fleet>, k: Key, i: nat, j: nat) {
    && i < j < |fs| && |fs| == |ops| + 1 && (forall n :: i <= n < j ==> RetainedAt(ops, fs, k, n)) && Knows(fs[i], k)
        && Knows(fs[i + 1], k)
    && (forall n :: i < n <= j ==> Knows(fs[n], k) && InPeriod(fs[n][k.id], fs[i + 1][k.id].epoch))
    && fs[i][k.id].epoch != fs[i + 1][k.id].epoch
  }

  lemma FleetQuietAt(p: Params, ops: seq<FleetOp>, fs: seq<Fleet>, k: Key, n: nat, epoch: nat)
    requires FleetRun(p, ops, fs) && n < |ops| && RetainedAt(ops, fs, k, n) && Knows(fs[n], k) && Knows(fs[n + 1], k)
    requires InPeriod(fs[n][k.id], epoch) && InPeriod(fs[n + 1][k.id], epoch)
    ensures Alike(fs[n + 1][k.id], fs[n][k.id])
  {
    ProjectsAt(p, ops, fs, k, n);
    var o := OpAt(p, ops, fs, k, n);
    if o != [] { LeavesOpenOnTime(p, fs[n][k.id], o[0]); }
  }

  lemma {:induction false} FleetPeriodIsQuiet(p: Params, ops: seq<FleetOp>, fs: seq<Fleet>, k: Key, i: nat, j: nat)
    requires FleetRun(p, ops, fs) && FleetOpensThrough(ops, fs, k, i, j)
    ensures Alike(fs[j][k.id], fs[i + 1][k.id])
    decreases j
  {
    if i + 1 < j {
      FleetPeriodIsQuiet(p, ops, fs, k, i, j - 1);
      FleetQuietAt(p, ops, fs, k, j - 1, fs[i + 1][k.id].epoch);
      AlikeTrans(fs[j][k.id], fs[j - 1][k.id], fs[i + 1][k.id]);
    }
  }

  lemma FleetOpens(p: Params, ops: seq<FleetOp>, fs: seq<Fleet>, k: Key, n: nat)
    requires FleetRun(p, ops, fs) && n < |ops| && RetainedAt(ops, fs, k, n) && Knows(fs[n], k) && Knows(fs[n + 1], k)
    requires fs[n][k.id].epoch != fs[n + 1][k.id].epoch
    ensures ops[n].On? && ops[n].key == k && fs[n + 1][k.id].phase == Open
        && CoolDownFits(p, fs[n + 1][k.id].level, fs[n + 1][k.id].coolDown)
    ensures fs[n + 1][k.id].openUntil == ops[n].op.now + fs[n + 1][k.id].coolDown
  {
    ProjectsAt(p, ops, fs, k, n);
    var o := OpAt(p, ops, fs, k, n);
    StepMoves(p, fs[n][k.id], o[0]);
    StepInv(p, fs[n][k.id], o[0]);
    WithRoomLooks(ops[n].op, Room(p, fs[n], fs[n][k.id]));
  }

  /** In every run of the set, a period that a key's breaker opens at some level lasts at least 0.8 of that level's
      cool-down, unless the breaker is dropped or the cap relaxed. */
  lemma FleetPeriodLasts(p: Params, ops: seq<FleetOp>, fs: seq<Fleet>, k: Key, i: nat, j: nat)
    requires FleetRun(p, ops, fs) && FleetOpensThrough(ops, fs, k, i, j) && j < |ops|
    requires RetainedAt(ops, fs, k, j) && !RelaxedAt(ops, fs, k, j)
    requires Knows(fs[j + 1], k) && !InPeriod(fs[j + 1][k.id], fs[j][k.id].epoch)
    ensures ops[i].On? && ops[j].On? && ops[i].key == k && ops[j].key == k
    ensures ops[j].op.now - ops[i].op.now >= Max(1, (0.8 * BaseCoolDown(p, fs[i + 1][k.id].level) as real).Floor)
  {
    FleetOpens(p, ops, fs, k, i);
    FleetPeriodIsQuiet(p, ops, fs, k, i, j);
    ProjectsAt(p, ops, fs, k, j);
    var o := OpAt(p, ops, fs, k, j);
    LeavesOpenOnTime(p, fs[j][k.id], o[0]);
    WithRoomLooks(ops[j].op, Room(p, fs[j], fs[j][k.id]));
  }

  lemma FleetMoves(p: Params, ops: seq<FleetOp>, fs: seq<Fleet>, k: Key, n: nat)
    requires FleetRun(p, ops, fs) && n < |ops| && RetainedAt(ops, fs, k, n)
    ensures Knows(fs[n], k) && Knows(fs[n + 1], k) && fs[n][k.id].level <= MaxLevel(p)
    ensures var b, c := fs[n][k.id], fs[n + 1][k.id];
            if c.epoch == b.epoch then c.level == b.level && (b.phase == Closed ==> c.phase == Closed)
            else c.epoch == b.epoch + 1 && c.phase == Open
                 && (b.phase != Closed ==> c.level == Min(b.level + 1, MaxLevel(p)))
  {
    ProjectsAt(p, ops, fs, k, n);
    var o := OpAt(p, ops, fs, k, n);
    if o != [] { StepMoves(p, fs[n][k.id], o[0]); }
  }

  /** In every run of the set, while a key's breaker is kept and does not close, each new open period is one failed
      probe and raises the level by one, up to the level of the longest cool-down. */
  lemma {:induction false} FleetFailedProbesRaiseLevel(p: Params, ops: seq<FleetOp>, fs: seq<Fleet>, k: Key, i: nat,
      j: nat)
    requires FleetRun(p, ops, fs) && i < j <= |ops|
    requires forall n :: i <= n < j ==> RetainedAt(ops, fs, k, n) && Knows(fs[n], k) && fs[n][k.id].phase != Closed
    ensures Knows(fs[i], k) && Knows(fs[j], k) && fs[i][k.id].epoch <= fs[j][k.id].epoch
    ensures fs[j][k.id].level == Min(fs[i][k.id].level + (fs[j][k.id].epoch - fs[i][k.id].epoch), MaxLevel(p))
    decreases j
  {
    FleetMoves(p, ops, fs, k, j - 1);
    FleetMoves(p, ops, fs, k, i);
    if i + 1 < j { FleetFailedProbesRaiseLevel(p, ops, fs, k, i, j - 1); }
  }

  // ------------------------------------------------------------------ closing by probing in the set

  /** Somewhere in the run the success of this probe of the key was recorded. */
  ghost predicate FleetSucceeded(ops: seq<FleetOp>, k: Key, id: nat, epoch: nat) {
    exists n :: 0 <= n < |ops| && ops[n].On? && ops[n].key == k && IsSuccess(ops[n].op, id, epoch)
  }

  predicate IsSuccess(op: Op, id: nat, epoch: nat) {
    op.Judge? && op.v == OK && op.t.probe && op.t.id == id && op.t.epoch == epoch
  }

  lemma OpAtIsOfRun(p: Params, ops: seq<FleetOp>, fs: seq<Fleet>, k: Key, n: nat, id: nat, epoch: nat)
    requires FleetRun(p, ops, fs) && n < |ops| && Succeeded(OpAt(p, ops, fs, k, n), id, epoch)
    ensures FleetSucceeded(ops, k, id, epoch)
  {
    var o := OpAt(p, ops, fs, k, n);
    assert IsSuccess(ops[n].op, id, epoch);
  }

  lemma SucceededSplit(a: seq<Op>, b: seq<Op>, id: nat, epoch: nat)
    requires Succeeded(a + b, id, epoch)
    ensures Succeeded(a, id, epoch) || Succeeded(b, id, epoch)
  {
    var i :| 0 <= i < |a + b| && (a + b)[i].Judge? && (a + b)[i].v == OK && (a + b)[i].t.probe && (a + b)[i].t.id == id
        && (a + b)[i].t.epoch == epoch;
    if i < |a| { assert a[i] == (a + b)[i]; } else { assert b[i - |a|] == (a + b)[i]; }
  }

  lemma KeyOpsStep(p: Params, ops: seq<FleetOp>, fs: seq<Fleet>, k: Key, n: nat)
    requires FleetRun(p, ops, fs) && n <= |ops| && KeyOps(p, ops, fs, k, n) != []
    ensures n > 0 && KeyOps(p, ops, fs, k, n) == KeyOps(p, ops, fs, k, n - 1) + OpAt(p, ops, fs, k, n - 1)
  {
  }

  lemma SucceededBefore(p: Params, ops: seq<FleetOp>, fs: seq<Fleet>, k: Key, n: nat, id: nat, epoch: nat)
    requires FleetRun(p, ops, fs) && n <= |ops| && Succeeded(KeyOps(p, ops, fs, k, n), id, epoch)
    ensures n > 0 && (Succeeded(KeyOps(p, ops, fs, k, n - 1), id, epoch)
        || Succeeded(OpAt(p, ops, fs, k, n - 1), id, epoch))
  {
    KeyOpsStep(p, ops, fs, k, n);
    SucceededSplit(KeyOps(p, ops, fs, k, n - 1), OpAt(p, ops, fs, k, n - 1), id, epoch);
  }

  lemma {:induction false} KeyOpsAreOfRun(p: Params, ops: seq<FleetOp>, fs: seq<Fleet>, k: Key, n: nat, id: nat,
      epoch: nat)
    requires FleetRun(p, ops, fs) && n <= |ops| && Succeeded(KeyOps(p, ops, fs, k, n), id, epoch)
    ensures FleetSucceeded(ops, k, id, epoch)
  {
    SucceededBefore(p, ops, fs, k, n, id, epoch);
    if Succeeded(OpAt(p, ops, fs, k, n - 1), id, epoch) {
      OpAtIsOfRun(p, ops, fs, k, n - 1, id, epoch);
    } else {
      KeyOpsAreOfRun(p, ops, fs, k, n - 1, id, epoch);
    }
  }

  ghost predicate FleetSuccesses(ops: seq<FleetOp>, k: Key, ids: set<nat>, epoch: nat) {
    forall id :: id in ids ==> FleetSucceeded(ops, k, id, epoch)
  }

  /** In every run of the set, a breaker that closes without being relaxed has had the required number of successes from
      distinct tickets of that open period. */
  lemma FleetClosingNeedsDistinctSuccesses(p: Params, ops: seq<FleetOp>, fs: seq<Fleet>, k: Key, n: nat)
    requires FleetRun(p, ops, fs) && n < |ops| && RetainedAt(ops, fs, k, n) && !RelaxedAt(ops, fs, k, n)
    requires Knows(fs[n], k) && Knows(fs[n + 1], k) && fs[n][k.id].phase != Closed && fs[n + 1][k.id].phase == Closed
    ensures exists ids: set<nat> :: |ids| >= p.probeSuccesses && FleetSuccesses(ops, k, ids, fs[n][k.id].epoch)
  {
    var o := ClosingOp(p, ops, fs, k, n);
    FleetPhase(p, ops, fs, k, n);
    FleetPhase(p, ops, fs, k, n + 1);
    var ids := ClosedBy(p, k, KeyOps(p, ops, fs, k, n), o);
    FleetSuccessesOf(p, ops, fs, k, n + 1, ids, fs[n][k.id].epoch);
  }

  lemma FleetPhase(p: Params, ops: seq<FleetOp>, fs: seq<Fleet>, k: Key, n: nat)
    requires FleetRun(p, ops, fs) && n <= |ops| && Knows(fs[n], k)
    ensures var b := After(p, k, KeyOps(p, ops, fs, k, n)); b.phase == fs[n][k.id].phase && b.epoch == fs[n][k.id].epoch
  {
    FleetProjects(p, ops, fs, k, n);
  }

  /** The closing step as the last operation of the key. */
  lemma ClosingOp(p: Params, ops: seq<FleetOp>, fs: seq<Fleet>, k: Key, n: nat) returns (o: Op)
    requires FleetRun(p, ops, fs) && n < |ops| && RetainedAt(ops, fs, k, n) && !RelaxedAt(ops, fs, k, n)
    requires Knows(fs[n], k) && Knows(fs[n + 1], k) && fs[n][k.id].phase != Closed && fs[n + 1][k.id].phase == Closed
    ensures !o.Relax? && KeyOps(p, ops, fs, k, n + 1) == KeyOps(p, ops, fs, k, n) + [o]
  {
    ProjectsAt(p, ops, fs, k, n);
    var os := OpAt(p, ops, fs, k, n);
    assert |os| == 1 && !os[0].Relax?;
    o := os[0];
  }

  lemma ClosedBy(p: Params, k: Key, before: seq<Op>, o: Op) returns (ids: set<nat>)
    requires Sane(p) && !o.Relax? && After(p, k, before).phase != Closed && After(p, k, before + [o]).phase == Closed
    ensures |ids| >= p.probeSuccesses && Successes(before + [o], ids, After(p, k, before).epoch)
  {
    var all := before + [o];
    assert all[..|all| - 1] == before;
    ClosingNeedsDistinctSuccesses(p, k, all);
    ids :| |ids| >= p.probeSuccesses && Successes(all, ids, After(p, k, before).epoch);
  }

  lemma FleetSuccessesOf(p: Params, ops: seq<FleetOp>, fs: seq<Fleet>, k: Key, n: nat, ids: set<nat>, epoch: nat)
    requires FleetRun(p, ops, fs) && n <= |ops| && Successes(KeyOps(p, ops, fs, k, n), ids, epoch)
    ensures FleetSuccesses(ops, k, ids, epoch)
  {
    forall id | id in ids ensures FleetSucceeded(ops, k, id, epoch) { KeyOpsAreOfRun(p, ops, fs, k, n, id, epoch); }
  }

  // ------------------------------------------------------------------ tickets of an earlier period

  lemma {:induction false} FleetEpochsGrow(p: Params, ops: seq<FleetOp>, fs: seq<Fleet>, k: Key, i: nat, j: nat)
    requires FleetRun(p, ops, fs) && i < j <= |ops| && forall n :: i <= n < j ==> RetainedAt(ops, fs, k, n)
    ensures Knows(fs[i], k) && Knows(fs[j], k) && fs[i][k.id].epoch <= fs[j][k.id].epoch
    decreases j
  {
    FleetMoves(p, ops, fs, k, j - 1);
    if i + 1 < j { FleetEpochsGrow(p, ops, fs, k, i, j - 1); }
  }

  /** In every run of the set, a ticket of the period in which step a found the key's breaker does nothing beyond the
      lazy transition once step x has opened the breaker, as long as the breaker is not dropped in between. */
  lemma FleetStaleTicket(p: Params, ops: seq<FleetOp>, fs: seq<Fleet>, k: Key, a: nat, x: nat, j: nat)
    requires FleetRun(p, ops, fs) && a <= x < j < |ops| && forall n :: a <= n <= j ==> RetainedAt(ops, fs, k, n)
    requires Knows(fs[a], k) && Knows(fs[x], k) && Knows(fs[x + 1], k) && Knows(fs[j], k)
    requires fs[x + 1][k.id].epoch != fs[x][k.id].epoch
    requires ops[j].On? && ops[j].key == k
    requires var o := ops[j].op; (o.Judge? || o.JudgeLate? || o.Abort? || o.GiveUp?) && o.t.epoch == fs[a][k.id].epoch
    ensures Knows(fs[j + 1], k)
        && (Alike(fs[j + 1][k.id], fs[j][k.id]) || Alike(fs[j + 1][k.id], Advance(p, fs[j][k.id], ops[j].op.now)))
  {
    FleetMoves(p, ops, fs, k, x);
    FleetEpochsGrow(p, ops, fs, k, x + 1, j + 1);
    if x + 1 < j { FleetEpochsGrow(p, ops, fs, k, x + 1, j); }
    if a < x { FleetEpochsGrow(p, ops, fs, k, a, x); }
    StaleAt(p, ops, fs, k, j);
  }

  lemma StaleAt(p: Params, ops: seq<FleetOp>, fs: seq<Fleet>, k: Key, j: nat)
    requires FleetRun(p, ops, fs) && j < |ops| && RetainedAt(ops, fs, k, j) && Knows(fs[j], k) && ops[j].On?
        && ops[j].key == k
    requires var o := ops[j].op; (o.Judge? || o.JudgeLate? || o.Abort? || o.GiveUp?) && o.t.epoch != fs[j][k.id].epoch
    ensures Knows(fs[j + 1], k)
        && (Alike(fs[j + 1][k.id], fs[j][k.id]) || Alike(fs[j + 1][k.id], Advance(p, fs[j][k.id], ops[j].op.now)))
  {
    ProjectsAt(p, ops, fs, k, j);
    StaleTicketIsIgnored(p, fs[j][k.id], OpAt(p, ops, fs, k, j)[0]);
  }

  // ------------------------------------------------------------------ the trip rule in the set

  function TimeOf(op: FleetOp): int {
    match op
    case Sync(now, _) => now
    case Prune(now, _) => now
    case On(_, o) => o.now
  }

  /** A clock that starts at or after the epoch and never goes back. */
  ghost predicate FleetTimed(ops: seq<FleetOp>) {
    && (forall i :: 0 <= i < |ops| ==> 0 <= TimeOf(ops[i]))
    && forall i, j :: 0 <= i < j < |ops| ==> TimeOf(ops[i]) <= TimeOf(ops[j])
  }

  lemma OpAtTime(p: Params, ops: seq<FleetOp>, fs: seq<Fleet>, k: Key, n: nat)
    requires FleetRun(p, ops, fs) && n < |ops|
    ensures var o := OpAt(p, ops, fs, k, n); |o| <= 1 && (o != [] ==> o[0].now == TimeOf(ops[n]))
  {
    if ops[n].On? && Knows(fs[n], k) { WithRoomLooks(ops[n].op, Room(p, fs[n], fs[n][k.id])); }
  }

  predicate UpTo(all: seq<Op>, now: int) { forall i :: 0 <= i < |all| ==> all[i].now <= now }

  lemma {:induction false} KeyOpsTimed(p: Params, ops: seq<FleetOp>, fs: seq<Fleet>, k: Key, n: nat)
    requires FleetRun(p, ops, fs) && FleetTimed(ops) && n <= |ops|
    ensures Timed(KeyOps(p, ops, fs, k, n)) && (n > 0 ==> UpTo(KeyOps(p, ops, fs, k, n), TimeOf(ops[n - 1])))
  {
    if n > 0 {
      KeyOpsTimed(p, ops, fs, k, n - 1);
      TimedNext(p, ops, fs, k, n);
    }
  }

  lemma TimedNext(p: Params, ops: seq<FleetOp>, fs: seq<Fleet>, k: Key, n: nat)
    requires FleetRun(p, ops, fs) && FleetTimed(ops) && 0 < n <= |ops| && Timed(KeyOps(p, ops, fs, k, n - 1))
    requires n > 1 ==> UpTo(KeyOps(p, ops, fs, k, n - 1), TimeOf(ops[n - 2]))
    ensures Timed(KeyOps(p, ops, fs, k, n)) && UpTo(KeyOps(p, ops, fs, k, n), TimeOf(ops[n - 1]))
  {
    if RetainedAt(ops, fs, k, n - 1) {
      OpAtTime(p, ops, fs, k, n - 1);
      TimedMore(KeyOps(p, ops, fs, k, n - 1), OpAt(p, ops, fs, k, n - 1), TimeOf(ops[n - 1]));
    }
  }

  lemma TimedMore(before: seq<Op>, o: seq<Op>, now: int)
    requires Timed(before) && UpTo(before, now) && 0 <= now && |o| <= 1 && (o != [] ==> o[0].now == now)
    ensures Timed(before + o) && UpTo(before + o, now)
  {
  }

  /** The plain list of outcomes that the key's breaker counted since it was added or last closed. */
  ghost function ListAt(p: Params, ops: seq<FleetOp>, fs: seq<Fleet>, k: Key, n: nat): seq<Event>
    requires FleetRun(p, ops, fs) && n <= |ops|
  {
    HistoryOf(p, k, KeyOps(p, ops, fs, k, n))
  }

  /** Step n is no abort on the key's breaker, or one that fits the list. */
  ghost predicate FleetFits(p: Params, ops: seq<FleetOp>, fs: seq<Fleet>, k: Key, n: nat)
    requires FleetRun(p, ops, fs) && n < |ops|
  {
    ops[n].On? && ops[n].key == k && Knows(fs[n], k) ==> AbortMatches(fs[n][k.id], ListAt(p, ops, fs, k, n), ops[n].op)
  }

  lemma AlikeMatches(a: State, b: State, h: seq<Event>, op: Op, room: bool)
    requires Alike(a, b)
    ensures AbortMatches(a, h, op) <==> AbortMatches(b, h, WithRoom(op, room))
  {
  }

  lemma {:induction false} KeyOpsFit(p: Params, ops: seq<FleetOp>, fs: seq<Fleet>, k: Key, n: nat)
    requires FleetRun(p, ops, fs) && n <= |ops| && forall m :: 0 <= m < n ==> FleetFits(p, ops, fs, k, m)
    ensures AllFit(p, k, KeyOps(p, ops, fs, k, n))
  {
    if n > 0 && RetainedAt(ops, fs, k, n - 1) {
      KeyOpsFit(p, ops, fs, k, n - 1);
      FitsNext(p, ops, fs, k, n - 1);
    }
  }

  lemma FitsNext(p: Params, ops: seq<FleetOp>, fs: seq<Fleet>, k: Key, n: nat)
    requires FleetRun(p, ops, fs) && n < |ops| && RetainedAt(ops, fs, k, n) && FleetFits(p, ops, fs, k, n)
    requires AllFit(p, k, KeyOps(p, ops, fs, k, n))
    ensures AllFit(p, k, KeyOps(p, ops, fs, k, n + 1))
  {
    var before, o := KeyOps(p, ops, fs, k, n), OpAt(p, ops, fs, k, n);
    OpAtTime(p, ops, fs, k, n);
    if o == [] {
      assert before + o == before;
    } else {
      FleetProjects(p, ops, fs, k, n);
      if ops[n].On? {
        AlikeMatches(fs[n][k.id], After(p, k, before), HistoryOf(p, k, before), ops[n].op, Room(p, fs[n], fs[n][k.id]));
      }
      AllFitMore(p, k, before, o[0]);
      assert o == [o[0]];
    }
  }

  /** In every run of the set, up to the first abort on the key that does not fit, a key's closed breaker opens at an
      operation if and only if that operation counts an outcome, the rule holds on the plain list of outcomes since the
      breaker was added or last closed, and the model's ejections are below its cap. */
  lemma FleetTripRefinesHistory(p: Params, ops: seq<FleetOp>, fs: seq<Fleet>, k: Key, n: nat)
    requires FleetRun(p, ops, fs) && FleetTimed(ops) && n < |ops| && Knows(fs[n], k) && fs[n][k.id].phase == Closed
    requires ops[n].On? && ops[n].key == k && !ops[n].op.Relax? && forall m :: 0 <= m <= n
                                                                               ==> FleetFits(p, ops, fs, k, m)
    ensures var b, o, h := fs[n][k.id], ops[n].op, ListAt(p, ops, fs, k, n);
            && Knows(fs[n + 1], k)
            && (fs[n + 1][k.id].phase == Open
                <==> OutcomeOf(b, o).Some? && Rule(p, Grown(b, h, o), o.now) != NoTrip && Room(p, fs[n], b))
  {
    var b, before := fs[n][k.id], KeyOps(p, ops, fs, k, n);
    var o := OpAt(p, ops, fs, k, n)[0];
    ProjectsAt(p, ops, fs, k, n);
    FleetProjects(p, ops, fs, k, n);
    KeyOpsTimed(p, ops, fs, k, n + 1);
    KeyOpsFit(p, ops, fs, k, n + 1);
    assert KeyOps(p, ops, fs, k, n + 1) == before + [o];
    LastTrips(p, k, before, o);
    AlikeTripStep(p, b, After(p, k, before), o);
    RoomAside(b, After(p, k, before), HistoryOf(p, k, before), ops[n].op, Room(p, fs[n], b));
  }

  lemma AlikeTripStep(p: Params, a: State, b: State, op: Op)
    requires Sane(p) && Shaped(p, b) && Alike(a, b)
    ensures Step(p, a, op).phase == Step(p, b, op).phase
  {
    AlikeStep(p, a, b, op);
  }

  /** What an operation counts depends neither on the cap's answer nor on the registry's data. */
  lemma RoomAside(a: State, b: State, h: seq<Event>, op: Op, room: bool)
    requires Alike(a, b)
    ensures OutcomeOf(a, op) == OutcomeOf(b, WithRoom(op, room)) && Grown(a, h, op) == Grown(b, h, WithRoom(op, room))
    ensures OutcomeOf(a, op).Some? ==> WithRoom(op, room).room == room
    ensures WithRoom(op, room).now == op.now
  {
  }

  // ------------------------------------------------------------------ the same registration added again

  /** Dropped by one view and added by the next, a key starts with a new breaker, whatever it was before. */
  lemma ReAddForgets(p: Params, ops: seq<FleetOp>, k: Key, m: Member, now: int)
    requires Sane(p) && m.key == k
    ensures var f := FleetAfter(p, ops + [Sync(now, []), Sync(now, [m])]); Knows(f, k) && Alike(f[k.id], New(k, p))
  {
    var a, b := ops + [Sync(now, [])], ops + [Sync(now, []), Sync(now, [m])];
    assert b == a + [Sync(now, [m])];
    FleetLast(p, ops, Sync(now, []));
    FleetLast(p, a, Sync(now, [m]));
    var f, ms := FleetAfter(p, a), [m];
    assert !Knows(f, k);
    AddedAlone(p, f, ms, m, now);
    SyncAdded(p, f, ms, now, k);
  }

  lemma FleetLast(p: Params, ops: seq<FleetOp>, op: FleetOp)
    requires Sane(p)
    ensures FleetAfter(p, ops + [op]) == FleetStep(p, FleetAfter(p, ops), op)
  {
    assert (ops + [op])[..|ops|] == ops;
  }

  lemma AddedAlone(p: Params, f: Fleet, ms: seq<Member>, m: Member, now: int)
    requires Sane(p) && ms == [m] && !Knows(f, m.key)
    ensures Knows(Synced(p, f, ms, now), m.key) && Synced(p, f, ms, now)[m.key.id].eligible == m.eligible
  {
    assert ms[..|ms| - 1] == [] && ms[|ms| - 1] == m;
    assert Joined(p, f, ms[..|ms| - 1]) == f;
    var g := Joined(p, f, ms);
    var kept: Fleet := map id | id in g && id in Ids(ms) :: g[id];
    EnforcedOf(p, kept, Models(kept), now, m.key.id);
  }

  /** And a plain ticket from before the first opening, or from before the key was known, counts in the new breaker. */
  lemma ReAddCountsOldTicket(p: Params, ops: seq<FleetOp>, k: Key, m: Member, now: int, op: Op)
    requires Sane(p) && m.key == k && op.Judge? && op.v == Fault && !op.t.probe && op.t.epoch == 0
    ensures var all := ops + [Sync(now, []), Sync(now, [m])];
        var f, g := FleetAfter(p, all), FleetAfter(p, all + [On(k, op)]);
            && Knows(f, k) && Knows(g, k) && OutcomeOf(f[k.id], op) == Some(Fault)
                && (g[k.id].phase == Open || g[k.id].streakLen == 1)
  {
    var all := ops + [Sync(now, []), Sync(now, [m])];
    ReAddForgets(p, ops, k, m, now);
    FleetLast(p, all, On(k, op));
    var f := FleetAfter(p, all);
    OnProjects(p, f, k, op, k);
    FirstFault(p, f[k.id], k, WithRoom(op, Room(p, f, f[k.id])));
  }

  lemma FirstFault(p: Params, b: State, k: Key, op: Op)
    requires Sane(p) && Shaped(p, b) && Alike(b, New(k, p)) && op.Judge? && op.v == Fault && !op.t.probe
        && op.t.epoch == 0
    ensures OutcomeOf(b, op) == Some(Fault) && (Step(p, b, op).phase == Open || Step(p, b, op).streakLen == 1)
  {
  }

  const ONE_FAULT: Params := Params(1, 0.0, 1, BUCKET_WIDTH, 10, 10, 1, 1, 1.0, 0)
  const SEEN: Member := Member(WORKER, "m", false)
  const FAULT: Op := Judge(0, 1, PLAIN, Fault, false, 0.0)

  lemma FirstView(p: Params, m: Member, now: int)
    requires Sane(p)
    ensures var f := FleetAfter(p, [Sync(now, [m])]); Knows(f, m.key) && Alike(f[m.key.id], New(m.key, p))
                                                      && f[m.key.id].eligible == m.eligible
  {
    var none: seq<FleetOp> := [];
    var f, ms := FleetAfter(p, none), [m];
    assert none + [Sync(now, ms)] == [Sync(now, [m])];
    FleetLast(p, none, Sync(now, ms));
    AddedAlone(p, f, ms, m, now);
    SyncAdded(p, f, ms, now, m.key);
  }

  lemma EjectsAtOnce(b: State)
    requires Alike(b, New(WORKER, ONE_FAULT))
    ensures var c := Step(ONE_FAULT, b, WithRoom(FAULT, true)); c.phase == Open && c.openUntil == 8
  {
    assert MaxLevel(ONE_FAULT) == 0;
    assert BaseCoolDown(ONE_FAULT, 0) == 10;
    assert Jittered(ONE_FAULT, 0, 0.0) == 8;
  }

  const EJECTED: seq<FleetOp> := [Sync(0, [SEEN])] + [On(WORKER, FAULT)]

  lemma EjectedRun()
    ensures var f := FleetAfter(ONE_FAULT, EJECTED); Knows(f, WORKER) && f[WORKER.id].phase == Open
                                                     && f[WORKER.id].openUntil == 8
  {
    FirstView(ONE_FAULT, SEEN, 0);
    var f := FleetAfter(ONE_FAULT, [Sync(0, [SEEN])]);
    FleetLast(ONE_FAULT, [Sync(0, [SEEN])], On(WORKER, FAULT));
    OnProjects(ONE_FAULT, f, WORKER, FAULT, WORKER);
    assert Room(ONE_FAULT, f, f[WORKER.id]);
    EjectsAtOnce(f[WORKER.id]);
  }

  /** A whole run: a worker is ejected until time 8, leaves the view at time 1 and comes back with the same
      registration; its breaker is closed at once. */
  lemma ReAddRun()
    ensures var f := FleetAfter(ONE_FAULT, EJECTED); Knows(f, WORKER) && f[WORKER.id].phase == Open
                                                     && f[WORKER.id].openUntil == 8
    ensures var g := FleetAfter(ONE_FAULT, EJECTED + [Sync(1, []), Sync(1, [SEEN])]);
            Knows(g, WORKER) && g[WORKER.id].phase == Closed && g[WORKER.id].epoch == 0
  {
    EjectedRun();
    ReAddForgets(ONE_FAULT, EJECTED, WORKER, SEEN, 1);
  }
}
