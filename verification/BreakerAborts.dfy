/** Streams that break after their first byte (internal/resilience/breakers.go): the abort takes an OK out of the
    window. Exactly when it is the attempt's own OK, and runs of the set in which it is another attempt's. */
module BreakerAborts {
  import opened Prelude
  import opened Window
  import opened History
  import opened Breaker
  import opened BreakerProtocol
  import opened BreakerHistory
  import opened Breakers
  import opened BreakerFleet

  // ------------------------------------------------------------------ whose OK an abort takes back

  /** In every run of the set, up to the first abort that does not fit, memory and list agree at every abort on the
      key's closed breaker if and only if it fits. */
  lemma FleetTakingBackIsExact(p: Params, ops: seq<FleetOp>, fs: seq<Fleet>, k: Key, n: nat)
    requires FleetRun(p, ops, fs) && FleetTimed(ops) && n < |ops| && forall m :: 0 <= m < n
                                                                                 ==> FleetFits(p, ops, fs, k, m)
    requires Knows(fs[n], k) && fs[n][k.id].phase == Closed && ops[n].On? && ops[n].key == k && ops[n].op.Abort?
    ensures Stands(p, fs[n][k.id], ListAt(p, ops, fs, k, n), ops[n].op) <==> FleetFits(p, ops, fs, k, n)
  {
    var b, before := fs[n][k.id], KeyOps(p, ops, fs, k, n);
    FleetRepresents(p, ops, fs, k, n);
    StandsExactly(p, b, HistoryOf(p, k, before), ops[n].op);
  }

  lemma FleetRepresents(p: Params, ops: seq<FleetOp>, fs: seq<Fleet>, k: Key, n: nat)
    requires FleetRun(p, ops, fs) && FleetTimed(ops) && n < |ops| && forall m :: 0 <= m < n
                                                                                 ==> FleetFits(p, ops, fs, k, m)
    requires Knows(fs[n], k) && fs[n][k.id].phase == Closed
    ensures Represents(p, fs[n][k.id], ListAt(p, ops, fs, k, n), BucketOf(TimeOf(ops[n])))
  {
    var before := KeyOps(p, ops, fs, k, n);
    FleetProjects(p, ops, fs, k, n);
    KeyOpsTimed(p, ops, fs, k, n);
    KeyOpsFit(p, ops, fs, k, n);
    LastRepresents(p, k, before, TimeOf(ops[n]));
    AlikeRepresents(p, fs[n][k.id], After(p, k, before), HistoryOf(p, k, before), BucketOf(TimeOf(ops[n])));
  }

  lemma AlikeRepresents(p: Params, a: State, b: State, h: seq<Event>, cur: int)
    requires Alike(a, b) && Represents(p, b, h, cur)
    ensures Represents(p, a, h, cur)
  {
  }

  /** Step n records an OK of this attempt on the key, and the key's breaker counts it. */
  ghost predicate CountsOk(ops: seq<FleetOp>, fs: seq<Fleet>, k: Key, n: nat, who: nat) {
    && n < |ops| && n < |fs| && IsOk(ops[n], k, who)
    && Knows(fs[n], k) && fs[n][k.id].phase == Closed && OutcomeOf(fs[n][k.id], ops[n].op) == Some(OK)
  }

  predicate IsOk(op: FleetOp, k: Key, who: nat) {
    op.On? && op.key == k && op.op.Judge? && op.op.v == OK && op.op.who == who
  }

  /** Step n is something the attempt says about the key. */
  predicate SpeaksAt(op: FleetOp, k: Key, who: nat) { op.On? && op.key == k && Speaks(op.op, who) }

  lemma HistoryMore(p: Params, k: Key, ops: seq<Op>, o: Op)
    requires Sane(p)
    ensures HistoryOf(p, k, ops + [o]) == HistoryNext(p, After(p, k, ops), HistoryOf(p, k, ops), o)
  {
    assert (ops + [o])[..|ops|] == ops;
  }

  /** The list after a step that keeps the key's breaker closed. */
  lemma ListNext(p: Params, ops: seq<FleetOp>, fs: seq<Fleet>, k: Key, m: nat, n: nat)
    requires FleetRun(p, ops, fs) && n == m + 1 <= |ops| && RetainedAt(ops, fs, k, m)
    requires Knows(fs[m], k) && Knows(fs[n], k) && fs[m][k.id].phase == Closed && fs[n][k.id].phase == Closed
    ensures ListAt(p, ops, fs, k, n)
         == if ops[m].On? && ops[m].key == k then Grown(fs[m][k.id], ListAt(p, ops, fs, k, m), ops[m].op)
             else ListAt(p, ops, fs, k, m)
  {
    OpAtTime(p, ops, fs, k, m);
    if OpAt(p, ops, fs, k, m) == [] {
      assert KeyOps(p, ops, fs, k, m) + [] == KeyOps(p, ops, fs, k, m);
    } else {
      ListGrows(p, ops, fs, k, m, OpAt(p, ops, fs, k, m)[0]);
    }
  }

  lemma ListGrows(p: Params, ops: seq<FleetOp>, fs: seq<Fleet>, k: Key, n: nat, o: Op)
    requires FleetRun(p, ops, fs) && n < |ops| && RetainedAt(ops, fs, k, n) && OpAt(p, ops, fs, k, n) == [o]
    requires Knows(fs[n], k) && Knows(fs[n + 1], k) && fs[n][k.id].phase == Closed && fs[n + 1][k.id].phase == Closed
    ensures ops[n].On? && ops[n].key == k
    ensures ListAt(p, ops, fs, k, n + 1) == Grown(fs[n][k.id], ListAt(p, ops, fs, k, n), ops[n].op)
  {
    var before := KeyOps(p, ops, fs, k, n);
    FleetPhase(p, ops, fs, k, n);
    FleetPhase(p, ops, fs, k, n + 1);
    FleetProjects(p, ops, fs, k, n);
    HistoryMore(p, k, before, o);
    AfterOne(p, k, before, o);
    RoomAside(fs[n][k.id], After(p, k, before), HistoryOf(p, k, before), ops[n].op, Room(p, fs[n], fs[n][k.id]));
  }

  /** Every step from i to j - 1 keeps the key's breaker. */
  ghost predicate KeptFrom(ops: seq<FleetOp>, fs: seq<Fleet>, k: Key, i: nat, j: nat)
    requires j <= |ops| && j <= |fs|
  {
    forall n :: i <= n < j ==> RetainedAt(ops, fs, k, n)
  }

  /** Kept, and of the same epoch at the end, a closed breaker was closed throughout. */
  lemma {:induction false} FleetClosedSince(p: Params, ops: seq<FleetOp>, fs: seq<Fleet>, k: Key, a: nat, n: nat,
      j: nat)
    requires FleetRun(p, ops, fs) && a <= n <= j <= |ops| && KeptFrom(ops, fs, k, a, j) && Knows(fs[a], k)
        && Knows(fs[j], k)
    requires fs[a][k.id].phase == Closed && fs[j][k.id].epoch == fs[a][k.id].epoch
    ensures Knows(fs[n], k) && fs[n][k.id].phase == Closed && fs[n][k.id].epoch == fs[a][k.id].epoch
    decreases n
  {
    if a < n {
      FleetClosedSince(p, ops, fs, k, a, n - 1, j);
      FleetMoves(p, ops, fs, k, n - 1);
      if n < j { FleetEpochsGrow(p, ops, fs, k, n, j); }
    }
  }

  lemma {:induction false} NeverOpened(p: Params, ops: seq<FleetOp>, fs: seq<Fleet>, k: Key, n: nat)
    requires FleetRun(p, ops, fs) && n <= |ops| && Knows(fs[n], k) && fs[n][k.id].epoch == 0
    ensures fs[n][k.id].phase == Closed
  {
    KnownLater(p, ops, fs, k, n);
    if RetainedAt(ops, fs, k, n - 1) {
      FleetMoves(p, ops, fs, k, n - 1);
      NeverOpened(p, ops, fs, k, n - 1);
    } else {
      ProjectsAt(p, ops, fs, k, n - 1);
    }
  }

  lemma KnownLater(p: Params, ops: seq<FleetOp>, fs: seq<Fleet>, k: Key, n: nat)
    requires FleetRun(p, ops, fs) && n < |fs| && Knows(fs[n], k)
    ensures n > 0
  {
  }

  lemma {:induction false} FleetKeepsOk(p: Params, ops: seq<FleetOp>, fs: seq<Fleet>, k: Key, i: nat, n: nat, who: nat)
    requires FleetRun(p, ops, fs) && i < n <= |ops| && CountsOk(ops, fs, k, i, who) && KeptFrom(ops, fs, k, i, n)
    requires Knows(fs[n], k) && fs[n][k.id].epoch == fs[i][k.id].epoch
    requires forall m :: i < m < n ==> !SpeaksAt(ops[m], k, who)
    ensures HasOk(ListAt(p, ops, fs, k, n), who, ops[i].op.now)
    decreases n
  {
    var m := n - 1;
    FleetClosedSince(p, ops, fs, k, i, m, n);
    FleetClosedSince(p, ops, fs, k, i, n, n);
    if m == i {
      OkEnters(p, ops, fs, k, m, n, who);
    } else {
      FleetKeepsOk(p, ops, fs, k, i, m, who);
      OkStays(p, ops, fs, k, m, n, who, ops[i].op.now);
    }
  }

  lemma OkEnters(p: Params, ops: seq<FleetOp>, fs: seq<Fleet>, k: Key, m: nat, n: nat, who: nat)
    requires FleetRun(p, ops, fs) && n == m + 1 <= |ops| && CountsOk(ops, fs, k, m, who)
    requires Knows(fs[n], k) && fs[n][k.id].phase == Closed
    ensures HasOk(ListAt(p, ops, fs, k, n), who, ops[m].op.now)
  {
    ListNext(p, ops, fs, k, m, n);
    FindOkAppend(ListAt(p, ops, fs, k, m), Event(ops[m].op.now, OK, true, who), who);
  }

  lemma OkStays(p: Params, ops: seq<FleetOp>, fs: seq<Fleet>, k: Key, m: nat, n: nat, who: nat, at: int)
    requires FleetRun(p, ops, fs) && n == m + 1 <= |ops| && RetainedAt(ops, fs, k, m) && !SpeaksAt(ops[m], k, who)
    requires Knows(fs[m], k) && Knows(fs[n], k) && fs[m][k.id].phase == Closed && fs[n][k.id].phase == Closed
    requires HasOk(ListAt(p, ops, fs, k, m), who, at)
    ensures HasOk(ListAt(p, ops, fs, k, n), who, at)
  {
    ListNext(p, ops, fs, k, m, n);
    if ops[m].On? && ops[m].key == k { GrownKeepsOk(fs[m][k.id], ListAt(p, ops, fs, k, m), ops[m].op, who, at); }
  }

  /** The attempt's OK is in the list before step n. */
  ghost predicate Listed(p: Params, ops: seq<FleetOp>, fs: seq<Fleet>, k: Key, n: nat, who: nat)
    requires FleetRun(p, ops, fs) && n <= |ops|
  {
    FindOk(ListAt(p, ops, fs, k, n), who).Some?
  }

  /** Step i counted the attempt's OK, and the breaker has been kept until step n. */
  ghost predicate CountedBy(ops: seq<FleetOp>, fs: seq<Fleet>, k: Key, i: nat, n: nat, who: nat) {
    i < n <= |ops| && n <= |fs| && CountsOk(ops, fs, k, i, who) && KeptFrom(ops, fs, k, i, n)
  }

  ghost predicate Sourced(ops: seq<FleetOp>, fs: seq<Fleet>, k: Key, n: nat, who: nat) {
    exists i: nat :: CountedBy(ops, fs, k, i, n, who)
  }

  /** An OK in the list was counted by this very breaker. */
  lemma {:induction false} ListedIsCounted(p: Params, ops: seq<FleetOp>, fs: seq<Fleet>, k: Key, n: nat, who: nat)
    requires FleetRun(p, ops, fs) && n <= |ops| && Listed(p, ops, fs, k, n, who)
    ensures Sourced(ops, fs, k, n, who)
  {
    ListedKept(p, ops, fs, k, n, who);
    var m := n - 1;
    if Listed(p, ops, fs, k, m, who) {
      ListedIsCounted(p, ops, fs, k, m, who);
      SourcedMore(ops, fs, k, m, n, who);
    } else {
      ListedNow(p, ops, fs, k, m, n, who);
    }
  }

  lemma SourcedMore(ops: seq<FleetOp>, fs: seq<Fleet>, k: Key, m: nat, n: nat, who: nat)
    requires n == m + 1 <= |ops| && n <= |fs| && Sourced(ops, fs, k, m, who) && RetainedAt(ops, fs, k, m)
    ensures Sourced(ops, fs, k, n, who)
  {
    var i: nat :| CountedBy(ops, fs, k, i, m, who);
    assert CountedBy(ops, fs, k, i, n, who);
  }

  lemma ListedKept(p: Params, ops: seq<FleetOp>, fs: seq<Fleet>, k: Key, n: nat, who: nat)
    requires FleetRun(p, ops, fs) && n <= |ops| && Listed(p, ops, fs, k, n, who)
    ensures n > 0 && RetainedAt(ops, fs, k, n - 1)
  {
  }

  lemma ListedNow(p: Params, ops: seq<FleetOp>, fs: seq<Fleet>, k: Key, m: nat, n: nat, who: nat)
    requires FleetRun(p, ops, fs) && n == m + 1 <= |ops| && RetainedAt(ops, fs, k, m)
    requires !Listed(p, ops, fs, k, m, who) && Listed(p, ops, fs, k, n, who)
    ensures Sourced(ops, fs, k, n, who)
  {
    ListedCountsOk(p, ops, fs, k, m, n, who);
    assert CountedBy(ops, fs, k, m, n, who);
  }

  lemma ListedCountsOk(p: Params, ops: seq<FleetOp>, fs: seq<Fleet>, k: Key, m: nat, n: nat, who: nat)
    requires FleetRun(p, ops, fs) && n == m + 1 <= |ops| && RetainedAt(ops, fs, k, m)
    requires !Listed(p, ops, fs, k, m, who) && Listed(p, ops, fs, k, n, who)
    ensures CountsOk(ops, fs, k, m, who)
  {
    var room := ListedByOp(p, ops, fs, k, m, n, who);
    FleetProjects(p, ops, fs, k, m);
    ListedOkCounts(p, fs[m][k.id], After(p, k, KeyOps(p, ops, fs, k, m)), ListAt(p, ops, fs, k, m), ops[m].op, room,
        who);
  }

  lemma ListedByOp(p: Params, ops: seq<FleetOp>, fs: seq<Fleet>, k: Key, m: nat, n: nat, who: nat) returns (room: bool)
    requires FleetRun(p, ops, fs) && n == m + 1 <= |ops| && RetainedAt(ops, fs, k, m)
    requires !Listed(p, ops, fs, k, m, who) && Listed(p, ops, fs, k, n, who)
    ensures ops[m].On? && ops[m].key == k
    ensures var b, o := After(p, k, KeyOps(p, ops, fs, k, m)), WithRoom(ops[m].op, room);
            FindOk(HistoryNext(p, b, ListAt(p, ops, fs, k, m), o), who).Some?
  {
    var before, os := KeyOps(p, ops, fs, k, m), OpAt(p, ops, fs, k, m);
    OpAtTime(p, ops, fs, k, m);
    assert os == [] ==> before + os == before;
    assert os == [os[0]];
    HistoryMore(p, k, before, os[0]);
    FleetPhase(p, ops, fs, k, m);
    room := Room(p, fs[m], fs[m][k.id]);
  }

  /** Only a counted OK brings an OK into the list. */
  lemma ListedOkCounts(p: Params, a: State, b: State, h: seq<Event>, op: Op, room: bool, who: nat)
    requires Sane(p) && Shaped(p, b) && Alike(a, b) && FindOk(h, who).None?
    requires FindOk(HistoryNext(p, b, h, WithRoom(op, room)), who).Some?
    ensures op.Judge? && op.v == OK && op.who == who && a.phase == Closed && OutcomeOf(a, op) == Some(OK)
  {
    GrownHasOk(b, h, WithRoom(op, room), who);
  }

  /** The ticket can be an attempt's at step i: the key's breaker issued it and has been kept since, or it is of epoch
      0, as are those handed out while the key had no breaker. */
  ghost predicate FleetIssued(p: Params, ops: seq<FleetOp>, fs: seq<Fleet>, k: Key, i: nat, t: Ticket)
    requires FleetRun(p, ops, fs) && i <= |ops|
  {
    t.epoch == 0 || exists a :: 0 <= a < i && TakesAt(p, ops, fs, k, a, t) && KeptFrom(ops, fs, k, a, i)
  }

  ghost predicate TakesAt(p: Params, ops: seq<FleetOp>, fs: seq<Fleet>, k: Key, a: nat, t: Ticket)
    requires FleetRun(p, ops, fs) && a < |ops|
  {
    && ops[a].On? && ops[a].key == k && ops[a].op.Take? && Knows(fs[a], k)
    && Acquired(p, fs[a][k.id], ops[a].op.now).1 == Some(t)
  }

  /** With its own ticket, an OK of the breaker's present epoch was counted if the breaker has been kept since. */
  lemma IssuedIsCounted(p: Params, ops: seq<FleetOp>, fs: seq<Fleet>, k: Key, i: nat, j: nat, who: nat)
    requires FleetRun(p, ops, fs) && i < j <= |ops| && IsOk(ops[i], k, who) && !ops[i].op.t.probe
    requires FleetIssued(p, ops, fs, k, i, ops[i].op.t) && KeptFrom(ops, fs, k, i, j)
    requires Knows(fs[j], k) && fs[j][k.id].epoch == ops[i].op.t.epoch
    ensures CountsOk(ops, fs, k, i, who)
  {
    var t := ops[i].op.t;
    FleetEpochsGrow(p, ops, fs, k, i, j);
    if t.epoch == 0 {
      NeverOpened(p, ops, fs, k, i);
    } else {
      var a :| 0 <= a < i && TakesAt(p, ops, fs, k, a, t) && KeptFrom(ops, fs, k, a, i);
      PlainTicket(p, fs[a][k.id], ops[a].op.now, t);
      assert KeptFrom(ops, fs, k, a, j);
      FleetClosedSince(p, ops, fs, k, a, i, j);
    }
  }

  /** When an abort finds the key's breaker closed in its ticket's epoch, the attempt's OK is in the list exactly when
      this very breaker counted it and has been kept since; with a ticket of its own, exactly when the key was known
      at the OK and has been kept since. */
  lemma FleetOkIsHeld(p: Params, ops: seq<FleetOp>, fs: seq<Fleet>, k: Key, i: nat, j: nat)
    requires FleetRun(p, ops, fs) && i < j < |ops| && ops[j].On? && ops[j].key == k && ops[j].op.Abort?
        && Knows(fs[j], k)
    requires fs[j][k.id].phase == Closed && Converting(fs[j][k.id], ops[j].op)
    requires IsOk(ops[i], k, ops[j].op.who) && ops[i].op.t == ops[j].op.t
    requires forall n :: 0 <= n < j && n != i ==> !SpeaksAt(ops[n], k, ops[j].op.who)
    ensures Listed(p, ops, fs, k, j, ops[j].op.who) <==> CountedBy(ops, fs, k, i, j, ops[j].op.who)
    ensures FleetIssued(p, ops, fs, k, i, ops[j].op.t) ==>
              (Listed(p, ops, fs, k, j, ops[j].op.who) <==> KeptFrom(ops, fs, k, i, j))
  {
    var who := ops[j].op.who;
    if Listed(p, ops, fs, k, j, who) {
      ListedIsCounted(p, ops, fs, k, j, who);
      var n: nat :| CountedBy(ops, fs, k, n, j, who);
      assert SpeaksAt(ops[n], k, who);
    }
    if KeptFrom(ops, fs, k, i, j) {
      if FleetIssued(p, ops, fs, k, i, ops[j].op.t) { IssuedIsCounted(p, ops, fs, k, i, j, who); }
      if CountsOk(ops, fs, k, i, who) { FleetKeepsOk(p, ops, fs, k, i, j, who); }
    }
  }

  /** Step i recorded the OK that step j takes back: the same attempt with its own ticket on a key that was known then
      and has been kept since, and nothing from that attempt in between. */
  ghost predicate FleetOkOf(p: Params, ops: seq<FleetOp>, fs: seq<Fleet>, k: Key, i: nat, j: nat)
    requires FleetRun(p, ops, fs) && j < |ops| && ops[j].On? && ops[j].op.Abort?
  {
    && i < j && IsOk(ops[i], k, ops[j].op.who) && ops[i].op.t == ops[j].op.t
    && FleetIssued(p, ops, fs, k, i, ops[j].op.t) && KeptFrom(ops, fs, k, i, j)
    && BucketOf(ops[j].op.okAt) <= BucketOf(ops[i].op.now)
    && forall n :: i < n < j ==> !SpeaksAt(ops[n], k, ops[j].op.who)
  }

  /** An abort of a plain ticket on the key takes back the attempt's own OK and names its bucket. */
  ghost predicate FleetNames(p: Params, ops: seq<FleetOp>, fs: seq<Fleet>, k: Key, j: nat)
    requires FleetRun(p, ops, fs) && j < |ops|
  {
    ops[j].On? && ops[j].key == k && ops[j].op.Abort? && !ops[j].op.t.probe ==>
      exists i: nat :: FleetOkOf(p, ops, fs, k, i, j)
                    && SameBucket(Places(p.window), ops[j].op.okAt, ops[i].op.now, ops[j].op.now)
  }

  /** Such an abort fits. */
  lemma NamesFits(p: Params, ops: seq<FleetOp>, fs: seq<Fleet>, k: Key, j: nat)
    requires FleetRun(p, ops, fs) && j < |ops| && FleetNames(p, ops, fs, k, j)
    ensures FleetFits(p, ops, fs, k, j)
  {
    if ops[j].On? && ops[j].key == k && Knows(fs[j], k) && Converting(fs[j][k.id], ops[j].op)
        && fs[j][k.id].phase == Closed {
      var i: nat :| FleetOkOf(p, ops, fs, k, i, j)
                 && SameBucket(Places(p.window), ops[j].op.okAt, ops[i].op.now, ops[j].op.now);
      IssuedIsCounted(p, ops, fs, k, i, j, ops[j].op.who);
      FleetKeepsOk(p, ops, fs, k, i, j, ops[j].op.who);
      FitsOwnOk(Places(p.window), ListAt(p, ops, fs, k, j), ops[j].op.who, ops[j].op.okAt, ops[j].op.now);
      ProjectsAt(p, ops, fs, k, j);
    }
  }

  /** So the trip rule refines the history in every run whose aborts take back OKs of keys that were known and kept,
      and name their buckets. */
  lemma FleetTripByOwnOks(p: Params, ops: seq<FleetOp>, fs: seq<Fleet>, k: Key, n: nat)
    requires FleetRun(p, ops, fs) && FleetTimed(ops) && n < |ops| && Knows(fs[n], k) && fs[n][k.id].phase == Closed
    requires ops[n].On? && ops[n].key == k && !ops[n].op.Relax? && forall m :: 0 <= m <= n
                                                                               ==> FleetNames(p, ops, fs, k, m)
    ensures var b, o, h := fs[n][k.id], ops[n].op, ListAt(p, ops, fs, k, n);
            && Knows(fs[n + 1], k)
            && (fs[n + 1][k.id].phase == Open
                <==> OutcomeOf(b, o).Some? && Rule(p, Grown(b, h, o), o.now) != NoTrip && Room(p, fs[n], b))
  {
    forall m | 0 <= m <= n ensures FleetFits(p, ops, fs, k, m) { NamesFits(p, ops, fs, k, m); }
    FleetTripRefinesHistory(p, ops, fs, k, n);
  }

  // ------------------------------------------------------------------ runs whose abort takes another attempt's OK

  const THREE_QUARTERS: Params := Params(10, 0.75, 1, BUCKET_WIDTH, 10, 10, 1, 1, 1.0, 0)
  const FIRST_OK: Op := Judge(0, 1, PLAIN, OK, false, 0.0)
  const SECOND_OK: Op := Judge(0, 2, PLAIN, OK, false, 0.0)
  const FIRST_BREAKS: Op := Abort(0, 1, PLAIN, 0, false, 0.0)

  /** The first attempt's OK comes before the worker has a breaker; its stream breaks when there is one. */
  const UNSEEN: seq<FleetOp> := [On(WORKER, FIRST_OK)] + [Sync(0, [SEEN])] + [On(WORKER, SECOND_OK)]
      + [On(WORKER, FIRST_BREAKS)]

  /** The first attempt's OK is forgotten with the breaker that counted it. */
  const RE_ADDED: seq<FleetOp> :=
    [Sync(0, [SEEN])] + [On(WORKER, FIRST_OK)] + [Sync(0, [])] + [Sync(0, [SEEN])] + [On(WORKER, SECOND_OK)]
        + [On(WORKER, FIRST_BREAKS)]

  /** At step n, an abort, the breaker opens although the rule does not hold on the list. */
  ghost predicate TripsWithoutRule(p: Params, ops: seq<FleetOp>, fs: seq<Fleet>, k: Key, n: nat) {
    && FleetRun(p, ops, fs) && FleetTimed(ops) && n < |ops| && ops[n].On? && ops[n].key == k && ops[n].op.Abort?
    && Knows(fs[n], k) && Knows(fs[n + 1], k) && fs[n][k.id].phase == Closed && fs[n + 1][k.id].phase == Open
    && OutcomeOf(fs[n][k.id], ops[n].op).Some?
    && Rule(p, Grown(fs[n][k.id], ListAt(p, ops, fs, k, n), ops[n].op), ops[n].op.now) == NoTrip
  }

  const EMPTY_RING: Ring := [Cell(0, 0, 0)]
  const ONE_OK: Ring := [Cell(0, 1, 0)]
  const ONE_LATE: Ring := [Cell(0, 1, 1)]

  lemma AddAlone(c: Cell, first: bool, delta: int)
    requires c.stamp == 0
    ensures var w: Ring := [c]; Add(w, 0, 0, first, delta) == [Bump(c, first, delta)] && Sum(w, 0) == (c.a, c.b)
  {
    var w: Ring := [c];
    SlotFacts(1, 0);
    assert SumPlaces(w, 0, 0) == (0, 0);
  }

  lemma StartRing()
    ensures Fresh(Places(THREE_QUARTERS.window)) == EMPTY_RING
  {
    assert Places(THREE_QUARTERS.window) == 1;
  }

  lemma OkRing()
    ensures Add(EMPTY_RING, 0, 0, true, 1) == ONE_OK && Sum(ONE_OK, 0) == (1, 0)
  {
    AddAlone(Cell(0, 0, 0), true, 1);
    AddAlone(Cell(0, 1, 0), true, 1);
  }

  lemma TakenRing()
    ensures Add(ONE_OK, 0, 0, true, -1) == EMPTY_RING
  {
    AddAlone(Cell(0, 1, 0), true, -1);
  }

  lemma LateRing()
    ensures Add(ONE_OK, 0, 0, false, 1) == ONE_LATE && Sum(ONE_LATE, 0) == (1, 1)
  {
    AddAlone(Cell(0, 1, 0), false, 1);
    AddAlone(Cell(0, 1, 1), true, 1);
  }

  /** The first outcome of a breaker, an OK. */
  lemma OkAlone(p: Params, b: State, op: Op, w: Ring)
    requires Sane(p) && Shaped(p, b) && b.phase == Closed && op.Judge? && op.v == OK && !op.t.probe
        && op.t.epoch == b.epoch
    requires p.failureRatio > 0.0 && Add(b.win, op.now, op.now, true, 1) == w && Sum(w, op.now) == (1, 0)
    ensures var c := Step(p, b, op);
            c.phase == Closed && c.epoch == b.epoch && Shaped(p, c) && c.win == w
  {
  }

  lemma CountsTheOk(b: State, room: bool)
    requires Shaped(THREE_QUARTERS, b) && Alike(b, New(WORKER, THREE_QUARTERS))
    ensures var c := Step(THREE_QUARTERS, b, WithRoom(SECOND_OK, room));
            c.phase == Closed && c.epoch == 0 && Shaped(THREE_QUARTERS, c) && c.win == ONE_OK
  {
    StartRing();
    OkRing();
    OkAlone(THREE_QUARTERS, b, WithRoom(SECOND_OK, room), ONE_OK);
  }

  /** An abort after which the window holds nothing but its fault. */
  lemma AbortAlone(p: Params, b: State, op: Op, rest: Ring, more: Ring, all: Ring)
    requires Sane(p) && Shaped(p, b) && b.phase == Closed && op.Abort? && !op.t.probe && op.t.epoch == b.epoch
        && op.room
    requires 0.0 < p.failureRatio <= 1.0 && p.minVolume <= 1
    requires Add(b.win, op.okAt, op.now, true, -1) == rest && Add(rest, op.now, op.now, true, 1) == more
    requires Add(more, op.now, op.now, false, 1) == all && Sum(all, op.now) == (1, 1)
    ensures Step(p, b, op).phase == Open
  {
    var d := Counted(b.(win := rest), op.now, Fault);
    assert d.win == all;
    assert TripReason(p, d, op.now, Fault) != NoTrip;
  }

  lemma OpensOnTheRest(b: State)
    requires Shaped(THREE_QUARTERS, b) && b.phase == Closed && b.epoch == 0 && b.win == ONE_OK
    ensures Step(THREE_QUARTERS, b, WithRoom(FIRST_BREAKS, true)).phase == Open
  {
    OkRing();
    TakenRing();
    LateRing();
    AbortAlone(THREE_QUARTERS, b, WithRoom(FIRST_BREAKS, true), EMPTY_RING, ONE_OK, ONE_LATE);
  }

  lemma RuleOnTheList()
    ensures Rule(THREE_QUARTERS, [Event(0, OK, true, 2), Event(0, Fault, true, 1)], 0) == NoTrip
    ensures FindOk([Event(0, OK, true, 2)], 1).None?
  {
    var ok, late := Event(0, OK, true, 2), Event(0, Fault, true, 1);
    ListCounts(ok, late);
    assert Places(THREE_QUARTERS.window) == 1;
    assert [ok, late][..1] == [ok];
    assert StreakOf([ok]) == [] && StreakOf([ok, late]) == [0];
  }

  lemma CountTwo(a: Event, b: Event, bucketOf: Event -> Option<int>, lo: int, hi: int)
    ensures CountIn([a, b], bucketOf, lo, hi)
         == (if Within(bucketOf(a), lo, hi) then 1 else 0) + if Within(bucketOf(b), lo, hi) then 1 else 0
  {
    assert [a, b][..1] == [a] && [a][..0] == [];
    assert CountIn([a], bucketOf, lo, hi) == if Within(bucketOf(a), lo, hi) then 1 else 0;
  }

  lemma ListCounts(ok: Event, late: Event)
    requires ok == Event(0, OK, true, 2) && late == Event(0, Fault, true, 1)
    ensures CountIn([ok, late], All(), 0, 1) == 2 && CountIn([ok, late], Faults(), 0, 1) == 1
  {
    CountTwo(ok, late, All(), 0, 1);
    CountTwo(ok, late, Faults(), 0, 1);
  }

  lemma GrownByAbort(b: State)
    requires b.epoch == 0
    ensures OutcomeOf(b, FIRST_BREAKS) == Some(Fault)
    ensures Grown(b, [Event(0, OK, true, 2)], FIRST_BREAKS) == [Event(0, OK, true, 2), Event(0, Fault, true, 1)]
  {
    RuleOnTheList();
  }

  /** The list at the abort is the second attempt's OK alone. */
  lemma OthersList(p: Params, all: seq<FleetOp>, fs: seq<Fleet>, n: nat, m: nat)
    requires FleetRun(p, all, fs) && 0 < n && m == n + 1 <= |all| && all[n] == On(WORKER, SECOND_OK)
    requires !RetainedAt(all, fs, WORKER, n - 1) && Knows(fs[n], WORKER) && Knows(fs[m], WORKER)
    requires fs[n][WORKER.id].phase == fs[m][WORKER.id].phase == Closed && fs[n][WORKER.id].epoch == 0
    ensures ListAt(p, all, fs, WORKER, m) == [Event(0, OK, true, 2)]
  {
    ListNext(p, all, fs, WORKER, n, m);
    assert ListAt(p, all, fs, WORKER, n) == [];
  }

  lemma TakesAnothersOk(p: Params, all: seq<FleetOp>, fs: seq<Fleet>, n: nat, m: nat)
    requires p == THREE_QUARTERS && FleetRun(p, all, fs) && FleetTimed(all) && 0 < n && m == n + 1 < |all|
    requires all[n] == On(WORKER, SECOND_OK) && all[m] == On(WORKER, FIRST_BREAKS)
    requires !RetainedAt(all, fs, WORKER, n - 1) && Knows(fs[n], WORKER) && !fs[n][WORKER.id].eligible
    ensures TripsWithoutRule(p, all, fs, WORKER, m)
  {
    OkThenAbort(p, all, fs, n, m);
    OthersList(p, all, fs, n, m);
    AbortsOnTheList(p, all, fs, m);
  }

  lemma AddedIsNew(p: Params, all: seq<FleetOp>, fs: seq<Fleet>, l: nat, n: nat)
    requires FleetRun(p, all, fs) && n == l + 1 <= |all| && !RetainedAt(all, fs, WORKER, l) && Knows(fs[n], WORKER)
    ensures Alike(fs[n][WORKER.id], New(WORKER, p))
  {
    assert FleetStepsTo(p, all, fs, l);
    KnownIsKeptOrNew(p, fs[l], all[l], WORKER);
  }

  lemma OkThenAbort(p: Params, all: seq<FleetOp>, fs: seq<Fleet>, n: nat, m: nat)
    requires p == THREE_QUARTERS && FleetRun(p, all, fs) && 0 < n && m == n + 1 < |all|
    requires all[n] == On(WORKER, SECOND_OK) && all[m] == On(WORKER, FIRST_BREAKS)
    requires !RetainedAt(all, fs, WORKER, n - 1) && Knows(fs[n], WORKER) && !fs[n][WORKER.id].eligible
    ensures Knows(fs[m], WORKER) && Knows(fs[m + 1], WORKER) && fs[n][WORKER.id].epoch == fs[m][WORKER.id].epoch == 0
    ensures fs[n][WORKER.id].phase == fs[m][WORKER.id].phase == Closed && fs[m + 1][WORKER.id].phase == Open
  {
    AddedIsNew(p, all, fs, n - 1, n);
    SecondOkCounts(p, all, fs, n);
    FirstBreaksOpens(p, all, fs, m);
  }

  lemma AbortsOnTheList(p: Params, all: seq<FleetOp>, fs: seq<Fleet>, m: nat)
    requires p == THREE_QUARTERS && FleetRun(p, all, fs) && FleetTimed(all) && m < |all|
        && all[m] == On(WORKER, FIRST_BREAKS)
    requires Knows(fs[m], WORKER) && Knows(fs[m + 1], WORKER) && fs[m][WORKER.id].epoch == 0
    requires fs[m][WORKER.id].phase == Closed && fs[m + 1][WORKER.id].phase == Open
    requires ListAt(p, all, fs, WORKER, m) == [Event(0, OK, true, 2)]
    ensures TripsWithoutRule(p, all, fs, WORKER, m)
  {
    GrownByAbort(fs[m][WORKER.id]);
    RuleOnTheList();
  }

  lemma SecondOkCounts(p: Params, all: seq<FleetOp>, fs: seq<Fleet>, n: nat)
    requires p == THREE_QUARTERS && FleetRun(p, all, fs) && n < |all| && all[n] == On(WORKER, SECOND_OK)
    requires Knows(fs[n], WORKER) && Alike(fs[n][WORKER.id], New(WORKER, p))
    ensures Knows(fs[n + 1], WORKER) && fs[n + 1][WORKER.id].eligible == fs[n][WORKER.id].eligible
    ensures var c := fs[n + 1][WORKER.id];
            c.phase == Closed && c.epoch == 0 && Shaped(p, c) && c.win == ONE_OK
  {
    assert FleetStepsTo(p, all, fs, n);
    CountsTheOk(fs[n][WORKER.id], Room(p, fs[n], fs[n][WORKER.id]));
    StepStaysPut(p, fs[n][WORKER.id], WithRoom(SECOND_OK, Room(p, fs[n], fs[n][WORKER.id])));
  }

  lemma FirstBreaksOpens(p: Params, all: seq<FleetOp>, fs: seq<Fleet>, n: nat)
    requires p == THREE_QUARTERS && FleetRun(p, all, fs) && n < |all| && all[n] == On(WORKER, FIRST_BREAKS)
    requires Knows(fs[n], WORKER) && !fs[n][WORKER.id].eligible
    requires var b := fs[n][WORKER.id]; b.phase == Closed && b.epoch == 0 && Shaped(p, b) && b.win == ONE_OK
    ensures Knows(fs[n + 1], WORKER) && fs[n + 1][WORKER.id].phase == Open
  {
    assert FleetStepsTo(p, all, fs, n);
    assert Room(p, fs[n], fs[n][WORKER.id]);
    OpensOnTheRest(fs[n][WORKER.id]);
    StepStaysPut(p, fs[n][WORKER.id], WithRoom(FIRST_BREAKS, true));
  }

  /** A view that adds the worker when it has no breaker. */
  lemma AddsWorker(p: Params, all: seq<FleetOp>, fs: seq<Fleet>, n: nat)
    requires FleetRun(p, all, fs) && n < |all| && all[n] == Sync(0, [SEEN]) && !Knows(fs[n], WORKER)
    ensures !RetainedAt(all, fs, WORKER, n) && Knows(fs[n + 1], WORKER) && !fs[n + 1][WORKER.id].eligible
  {
    assert FleetStepsTo(p, all, fs, n);
    AddedAlone(p, fs[n], [SEEN], SEEN, 0);
  }

  lemma UnknownStays(p: Params, all: seq<FleetOp>, fs: seq<Fleet>, n: nat)
    requires FleetRun(p, all, fs) && n < |all| && !Knows(fs[n], WORKER) && all[n].On?
    ensures !Knows(fs[n + 1], WORKER)
  {
    ProjectsAt(p, all, fs, WORKER, n);
  }

  /** A whole run: the OK was recorded before the worker's breaker was added, the breaker counts another attempt's OK,
      and when the first stream breaks that OK is taken out and the breaker trips on one fault in two outcomes. */
  lemma AbortOfUnseenOk() returns (fs: seq<Fleet>)
    ensures TripsWithoutRule(THREE_QUARTERS, UNSEEN, fs, WORKER, 3)
  {
    fs := FleetStates(THREE_QUARTERS, UNSEEN);
    FleetStatesRun(THREE_QUARTERS, UNSEEN);
    assert FleetTimed(UNSEEN);
    UnseenTrips(UNSEEN, fs);
  }

  lemma UnseenTrips(all: seq<FleetOp>, fs: seq<Fleet>)
    requires FleetRun(THREE_QUARTERS, all, fs) && FleetTimed(all) && |all| == 4 && all[0].On?
        && all[1] == Sync(0, [SEEN])
    requires all[2] == On(WORKER, SECOND_OK) && all[3] == On(WORKER, FIRST_BREAKS)
    ensures TripsWithoutRule(THREE_QUARTERS, all, fs, WORKER, 3)
  {
    UnknownStays(THREE_QUARTERS, all, fs, 0);
    AddsWorker(THREE_QUARTERS, all, fs, 1);
    TakesAnothersOk(THREE_QUARTERS, all, fs, 2, 3);
  }

  lemma DropsWorker(p: Params, all: seq<FleetOp>, fs: seq<Fleet>, n: nat)
    requires FleetRun(p, all, fs) && n < |all| && all[n] == Sync(0, [])
    ensures !Knows(fs[n + 1], WORKER)
  {
    assert FleetStepsTo(p, all, fs, n);
    var none: seq<Member> := [];
    assert Ids(none) == {};
  }

  /** A whole run: the breaker that counted the OK is dropped and added again before the stream breaks, with the same
      end. */
  lemma AbortAfterReAdd() returns (fs: seq<Fleet>)
    ensures TripsWithoutRule(THREE_QUARTERS, RE_ADDED, fs, WORKER, 5)
  {
    fs := FleetStates(THREE_QUARTERS, RE_ADDED);
    FleetStatesRun(THREE_QUARTERS, RE_ADDED);
    assert FleetTimed(RE_ADDED);
    ReAddedTrips(RE_ADDED, fs);
  }

  lemma ReAddedTrips(all: seq<FleetOp>, fs: seq<Fleet>)
    requires FleetRun(THREE_QUARTERS, all, fs) && FleetTimed(all) && |all| == 6
    requires all[2] == Sync(0, []) && all[3] == Sync(0, [SEEN])
    requires all[4] == On(WORKER, SECOND_OK) && all[5] == On(WORKER, FIRST_BREAKS)
    ensures TripsWithoutRule(THREE_QUARTERS, all, fs, WORKER, 5)
  {
    DropsWorker(THREE_QUARTERS, all, fs, 2);
    AddsWorker(THREE_QUARTERS, all, fs, 3);
    TakesAnothersOk(THREE_QUARTERS, all, fs, 4, 5);
  }
}
