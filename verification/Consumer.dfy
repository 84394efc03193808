/** The usage consumer of one partition (internal/usage/consumer.go) with its store (internal/postgres/usage.go): the
    database first, offsets after, a crash at any step, and replay. */
module Consumer {
  import opened Prelude

  /** A usage row. `content` stands for the columns that no key is on. */
  datatype Row = Row(eventId: string, requestId: string, offset: nat, content: string)

  /** What a record is good for: a row, a reject with its reason, or nothing. */
  datatype Record = Usage(row: Row) | Reject(reason: string) | Skip

  const REJECT_INVALID := "invalid"

  /** A partition: the records by offset. */
  ghost predicate Partition(log: seq<Record>) { forall i :: 0 <= i < |log| && log[i].Usage? ==> log[i].row.offset == i }

  /** The database refuses some rows for their content, the same ones every time. */
  type Refuses = Row -> bool

  // ------------------------------------------------------------------ the store

  /** Both keys are unique: the event and the request. */
  predicate Conflicts(rows: seq<Row>, r: Row) {
    exists i :: 0 <= i < |rows| && (rows[i].eventId == r.eventId || rows[i].requestId == r.requestId)
  }

  function InsertOne(rows: seq<Row>, r: Row): seq<Row> { if Conflicts(rows, r) then rows else rows + [r] }

  /** The rows of one transaction, in order. */
  function InsertAll(rows: seq<Row>, rs: seq<Row>): seq<Row> {
    if rs == [] then rows else InsertOne(InsertAll(rows, rs[..|rs| - 1]), rs[|rs| - 1])
  }

  /** Recording a reject again changes nothing. */
  function AddRejects(stored: map<nat, string>, more: map<nat, string>): map<nat, string> { more + stored }

  // ------------------------------------------------------------------ one pass in order

  predicate Refused(log: seq<Record>, bad: Refuses, i: int) { 0 <= i < |log| && log[i].Usage? && bad(log[i].row) }

  /** One more record: a row that the database takes is inserted. */
  function Take(bad: Refuses, rows: seq<Row>, rec: Record): seq<Row> {
    if rec.Usage? && !bad(rec.row) then InsertOne(rows, rec.row) else rows
  }

  /** The rows that one pass over the first n records stores. */
  function RowsOf(log: seq<Record>, bad: Refuses, n: nat): seq<Row>
    requires n <= |log|
  {
    if n == 0 then [] else Take(bad, RowsOf(log, bad, n - 1), log[n - 1])
  }

  /** Rejects of classification, and of rows that the database refuses, among the records lo .. hi - 1. */
  function RejectsIn(log: seq<Record>, lo: nat, hi: nat): map<nat, string> {
    map i: nat | lo <= i < hi && i < |log| && log[i].Reject? :: log[i].reason
  }

  function RefusedIn(log: seq<Record>, bad: Refuses, lo: nat, hi: nat): map<nat, string> {
    map i: nat | lo <= i < hi && Refused(log, bad, i) :: REJECT_INVALID
  }

  /** The rows of a batch. */
  function BatchRows(log: seq<Record>, lo: nat, hi: nat): seq<Row>
    requires lo <= hi <= |log|
  {
    if lo == hi then [] else BatchRows(log, lo, hi - 1) + if log[hi - 1].Usage? then [log[hi - 1].row] else []
  }

  ghost predicate NoneRefused(log: seq<Record>, bad: Refuses, lo: nat, hi: nat) {
    forall i :: lo <= i < hi ==> !Refused(log, bad, i)
  }

  // ------------------------------------------------------------------ replay

  lemma ConflictsGrow(rows: seq<Row>, r: Row, x: Row)
    requires Conflicts(rows, r)
    ensures Conflicts(InsertOne(rows, x), r)
  {
    var i :| 0 <= i < |rows| && (rows[i].eventId == r.eventId || rows[i].requestId == r.requestId);
    assert InsertOne(rows, x)[i] == rows[i];
  }

  lemma InsertedConflicts(rows: seq<Row>, r: Row)
    ensures Conflicts(InsertOne(rows, r), r)
  {
    if !Conflicts(rows, r) { assert (rows + [r])[|rows|] == r; }
  }

  /** A row that the pass has seen is in the way of itself. */
  lemma {:induction false} SeenConflicts(log: seq<Record>, bad: Refuses, n: nat, i: nat)
    requires i < n <= |log| && log[i].Usage? && !bad(log[i].row)
    ensures Conflicts(RowsOf(log, bad, n), log[i].row)
  {
    if i == n - 1 {
      InsertedConflicts(RowsOf(log, bad, i), log[i].row);
    } else {
      SeenConflicts(log, bad, n - 1, i);
      if log[n - 1].Usage? { ConflictsGrow(RowsOf(log, bad, n - 1), log[i].row, log[n - 1].row); }
    }
  }

  /** One record again, after a pass that had got at least as far. */
  lemma ReplayOne(log: seq<Record>, bad: Refuses, h: nat, i: nat)
    requires i <= h <= |log| && i < |log| && log[i].Usage? && !bad(log[i].row)
    ensures InsertOne(RowsOf(log, bad, h), log[i].row) == RowsOf(log, bad, Max(h, i + 1))
  {
    if i < h { SeenConflicts(log, bad, h, i); }
  }

  lemma ReplayNext(log: seq<Record>, bad: Refuses, h: nat, i: nat)
    requires i < |log| && h <= |log|
    ensures Take(bad, RowsOf(log, bad, Max(h, i)), log[i]) == RowsOf(log, bad, Max(h, i + 1))
  {
    if log[i].Usage? && !bad(log[i].row) { ReplayOne(log, bad, Max(h, i), i); }
  }

  /** A batch written record by record, without what the database refuses. */
  function Written(log: seq<Record>, bad: Refuses, rows: seq<Row>, lo: nat, hi: nat): seq<Row>
    requires lo <= hi <= |log|
  {
    if lo == hi then rows else Take(bad, Written(log, bad, rows, lo, hi - 1), log[hi - 1])
  }

  /** The same row by row, over the batch's rows alone. */
  function InsertGood(bad: Refuses, rows: seq<Row>, rs: seq<Row>): seq<Row> {
    if rs == [] then rows
    else
      var before, r := InsertGood(bad, rows, rs[..|rs| - 1]), rs[|rs| - 1];
      if bad(r) then before else InsertOne(before, r)
  }

  lemma {:induction false} WrittenIsBatch(log: seq<Record>, bad: Refuses, rows: seq<Row>, lo: nat, hi: nat)
    requires lo <= hi <= |log|
    ensures InsertGood(bad, rows, BatchRows(log, lo, hi)) == Written(log, bad, rows, lo, hi)
  {
    if lo < hi {
      WrittenIsBatch(log, bad, rows, lo, hi - 1);
      var rs := BatchRows(log, lo, hi - 1);
      if log[hi - 1].Usage? { assert (rs + [log[hi - 1].row])[..|rs|] == rs; } else { assert rs + [] == rs; }
    }
  }

  lemma {:induction false} GoodIsAll(bad: Refuses, rows: seq<Row>, rs: seq<Row>)
    requires forall r :: r in rs ==> !bad(r)
    ensures InsertAll(rows, rs) == InsertGood(bad, rows, rs)
  {
    if rs != [] { GoodIsAll(bad, rows, rs[..|rs| - 1]); }
  }

  lemma {:induction false} BatchRowsGood(log: seq<Record>, bad: Refuses, lo: nat, hi: nat)
    requires lo <= hi <= |log|
    ensures NoneRefused(log, bad, lo, hi) <==> forall r :: r in BatchRows(log, lo, hi) ==> !bad(r)
  {
    if lo < hi {
      BatchRowsGood(log, bad, lo, hi - 1);
      assert NoneRefused(log, bad, lo, hi) <==> NoneRefused(log, bad, lo, hi - 1) && !Refused(log, bad, hi - 1);
    }
  }

  lemma {:induction false} ReplayWritten(log: seq<Record>, bad: Refuses, h: nat, lo: nat, hi: nat)
    requires lo <= hi <= |log| && lo <= h <= |log|
    ensures Written(log, bad, RowsOf(log, bad, h), lo, hi) == RowsOf(log, bad, Max(h, hi))
  {
    if lo < hi {
      ReplayWritten(log, bad, h, lo, hi - 1);
      ReplayNext(log, bad, h, hi - 1);
    }
  }

  /** A batch written over what a pass had stored is the pass, wherever the pass had stopped. */
  lemma ReplayBatch(log: seq<Record>, bad: Refuses, h: nat, lo: nat, hi: nat)
    requires lo <= hi <= |log| && lo <= h <= |log|
    ensures InsertGood(bad, RowsOf(log, bad, h), BatchRows(log, lo, hi)) == RowsOf(log, bad, Max(h, hi))
    ensures NoneRefused(log, bad, lo, hi) ==> InsertAll(RowsOf(log, bad, h), BatchRows(log, lo, hi))
                                              == RowsOf(log, bad, Max(h, hi))
  {
    WrittenIsBatch(log, bad, RowsOf(log, bad, h), lo, hi);
    ReplayWritten(log, bad, h, lo, hi);
    BatchRowsGood(log, bad, lo, hi);
    if NoneRefused(log, bad, lo, hi) { GoodIsAll(bad, RowsOf(log, bad, h), BatchRows(log, lo, hi)); }
  }

  // ------------------------------------------------------------------ the machine

  /** How far a batch has got. */
  datatype Stage = Rejecting | Inserting | OneByOne(at: nat) | Refusing | Durable

  datatype Job = NoJob | Batch(lo: nat, hi: nat, stage: Stage)

  /** The store, the committed offset, the reader's position and the batch in hand. `rowsUpTo`, `rejectsUpTo` and
      `refusedUpTo` say how far a pass in order would be with what is stored. */
  datatype Sys = Sys(rows: seq<Row>, rejects: map<nat, string>, committed: nat, pos: nat, job: Job,
                     rowsUpTo: nat, rejectsUpTo: nat, refusedUpTo: nat)

  const Initial: Sys := Sys([], map[], 0, 0, NoJob, 0, 0, 0)

  datatype Label =
    | Poll(n: nat)            // read the next n records
    | SaveRejects(upTo: nat)  // record the classified rejects, or only a first part of them
    | RejectsSaved            // all of them are recorded
    | InsertBatch             // one transaction for all rows
    | BatchUnheard            // it is committed, but reported as failed: it will be tried again
    | BatchRefused            // the database refused some row: write row by row
    | InsertRow               // one row, or note that it is refused
    | RowUnheard              // the row is committed, but reported as failed
    | SaveRefused(upTo: nat)
    | RefusedSaved
    | Commit                  // the offset commit succeeds
    | CommitFails             // it does not; the consumer goes on
    | Crash                   // at any time: everything in memory is lost

  ghost predicate Enabled(log: seq<Record>, bad: Refuses, s: Sys, l: Label) {
    match l
    case Poll(n) => s.job.NoJob? && n > 0 && s.pos + n <= |log|
    case SaveRejects(upTo) => s.job.Batch? && s.job.stage.Rejecting? && s.job.lo <= upTo <= s.job.hi
    case RejectsSaved => s.job.Batch? && s.job.stage.Rejecting?
    case InsertBatch => s.job.Batch? && s.job.stage.Inserting? && s.job.lo <= s.job.hi <= |log|
        && NoneRefused(log, bad, s.job.lo, s.job.hi)
    case BatchUnheard => s.job.Batch? && s.job.stage.Inserting? && s.job.lo <= s.job.hi <= |log|
        && NoneRefused(log, bad, s.job.lo, s.job.hi)
    case BatchRefused => s.job.Batch? && s.job.stage.Inserting? && !NoneRefused(log, bad, s.job.lo, s.job.hi)
    case InsertRow => s.job.Batch? && s.job.stage.OneByOne? && s.job.stage.at < s.job.hi <= |log|
    case RowUnheard => s.job.Batch? && s.job.stage.OneByOne? && s.job.stage.at < s.job.hi <= |log|
    case SaveRefused(upTo) => s.job.Batch? && s.job.stage.Refusing? && s.job.lo <= upTo <= s.job.hi
    case RefusedSaved => s.job.Batch? && s.job.stage.Refusing?
    case Commit => s.job.Batch? && s.job.stage.Durable?
    case CommitFails => s.job.Batch? && s.job.stage.Durable?
    case Crash => true
  }

  ghost function Next(log: seq<Record>, bad: Refuses, s: Sys, l: Label): Sys
    requires Enabled(log, bad, s, l)
  {
    match l
    case Poll(n) => s.(job := Batch(s.pos, s.pos + n, Rejecting))
    case SaveRejects(upTo) =>
      s.(rejects := AddRejects(s.rejects, RejectsIn(log, s.job.lo, upTo)), rejectsUpTo := Max(s.rejectsUpTo, upTo))
    case RejectsSaved =>
      s.(rejects := AddRejects(s.rejects, RejectsIn(log, s.job.lo, s.job.hi)),
          rejectsUpTo := Max(s.rejectsUpTo, s.job.hi),
         job := s.job.(stage := Inserting))
    case InsertBatch =>
      s.(rows := InsertAll(s.rows, BatchRows(log, s.job.lo, s.job.hi)), rowsUpTo := Max(s.rowsUpTo, s.job.hi),
         refusedUpTo := Max(s.refusedUpTo, s.job.hi), job := s.job.(stage := Durable))
    case BatchUnheard => s.(rows := InsertAll(s.rows, BatchRows(log, s.job.lo, s.job.hi)),
        rowsUpTo := Max(s.rowsUpTo, s.job.hi))
    case BatchRefused => s.(job := s.job.(stage := OneByOne(s.job.lo)))
    case InsertRow =>
      var i := s.job.stage.at;
      s.(rows := Take(bad, s.rows, log[i]), rowsUpTo := Max(s.rowsUpTo, i + 1),
         job := s.job.(stage := if i + 1 == s.job.hi then Refusing else OneByOne(i + 1)))
    case RowUnheard => s.(rows := Take(bad, s.rows, log[s.job.stage.at]),
        rowsUpTo := Max(s.rowsUpTo, s.job.stage.at + 1))
    case SaveRefused(upTo) =>
      s.(rejects := AddRejects(s.rejects, RefusedIn(log, bad, s.job.lo, upTo)), refusedUpTo := Max(s.refusedUpTo, upTo))
    case RefusedSaved =>
      s.(rejects := AddRejects(s.rejects, RefusedIn(log, bad, s.job.lo, s.job.hi)),
          refusedUpTo := Max(s.refusedUpTo, s.job.hi),
         job := s.job.(stage := Durable))
    case Commit => s.(committed := s.job.hi, pos := s.job.hi, job := NoJob)
    case CommitFails => s.(pos := s.job.hi, job := NoJob)
    case Crash => s.(pos := s.committed, job := NoJob)
  }

  /** The stored rejects of a pass that had got so far with each kind. */
  function PassRejects(log: seq<Record>, bad: Refuses, n: nat, m: nat): map<nat, string> {
    RejectsIn(log, 0, n) + RefusedIn(log, bad, 0, m)
  }

  /** What a stage has made durable. */
  ghost predicate StageHolds(s: Sys) {
    match s.job
    case NoJob => true
    case Batch(lo, hi, stage) =>
      && lo == s.pos < hi
      && (stage != Rejecting ==> s.rejectsUpTo >= hi)
      && match stage
         case OneByOne(at) => lo <= at < hi && s.rowsUpTo >= at
         case Refusing => s.rowsUpTo >= hi
         case Durable => s.rowsUpTo >= hi && s.refusedUpTo >= hi
         case _ => true
  }

  ghost predicate Inv(log: seq<Record>, bad: Refuses, s: Sys) {
    && s.committed <= s.pos <= s.rowsUpTo <= |log| && s.pos <= s.rejectsUpTo <= |log| && s.pos <= s.refusedUpTo <= |log|
    && (s.job.Batch? ==> s.job.hi <= |log|)
    && s.rows == RowsOf(log, bad, s.rowsUpTo)
    && s.rejects == PassRejects(log, bad, s.rejectsUpTo, s.refusedUpTo)
    && StageHolds(s)
  }

  lemma RejectsAgain(log: seq<Record>, bad: Refuses, n: nat, m: nat, lo: nat, hi: nat)
    requires lo <= n
    ensures AddRejects(PassRejects(log, bad, n, m), RejectsIn(log, lo, hi)) == PassRejects(log, bad, Max(n, hi), m)
  {
  }

  lemma RefusedAgain(log: seq<Record>, bad: Refuses, n: nat, m: nat, lo: nat, hi: nat)
    requires lo <= m
    ensures AddRejects(PassRejects(log, bad, n, m), RefusedIn(log, bad, lo, hi)) == PassRejects(log, bad, n, Max(m, hi))
  {
  }

  lemma NothingRefused(log: seq<Record>, bad: Refuses, n: nat, m: nat, lo: nat, hi: nat)
    requires lo <= m && NoneRefused(log, bad, lo, hi)
    ensures PassRejects(log, bad, n, m) == PassRejects(log, bad, n, Max(m, hi))
  {
  }

  lemma InsertBatchInv(log: seq<Record>, bad: Refuses, s: Sys)
    requires Inv(log, bad, s) && Enabled(log, bad, s, InsertBatch)
    ensures Inv(log, bad, Next(log, bad, s, InsertBatch))
  {
    ReplayBatch(log, bad, s.rowsUpTo, s.job.lo, s.job.hi);
    NothingRefused(log, bad, s.rejectsUpTo, s.refusedUpTo, s.job.lo, s.job.hi);
  }

  lemma UnheardInv(log: seq<Record>, bad: Refuses, s: Sys, l: Label)
    requires Inv(log, bad, s) && Enabled(log, bad, s, l) && (l.BatchUnheard? || l.RowUnheard?)
    ensures Inv(log, bad, Next(log, bad, s, l))
  {
    if l.BatchUnheard? {
      ReplayBatch(log, bad, s.rowsUpTo, s.job.lo, s.job.hi);
    } else {
      ReplayNext(log, bad, s.rowsUpTo, s.job.stage.at);
    }
  }

  lemma InsertRowInv(log: seq<Record>, bad: Refuses, s: Sys)
    requires Inv(log, bad, s) && Enabled(log, bad, s, InsertRow)
    ensures Inv(log, bad, Next(log, bad, s, InsertRow))
  {
    var i := s.job.stage.at;
    ReplayNext(log, bad, s.rowsUpTo, i);
  }

  lemma SaveInv(log: seq<Record>, bad: Refuses, s: Sys, l: Label)
    requires Inv(log, bad, s) && Enabled(log, bad, s, l)
        && (l.SaveRejects? || l.RejectsSaved? || l.SaveRefused? || l.RefusedSaved?)
    ensures Inv(log, bad, Next(log, bad, s, l))
  {
    match l
    case SaveRejects(upTo) => RejectsAgain(log, bad, s.rejectsUpTo, s.refusedUpTo, s.job.lo, upTo);
    case RejectsSaved => RejectsAgain(log, bad, s.rejectsUpTo, s.refusedUpTo, s.job.lo, s.job.hi);
    case SaveRefused(upTo) => RefusedAgain(log, bad, s.rejectsUpTo, s.refusedUpTo, s.job.lo, upTo);
    case RefusedSaved => RefusedAgain(log, bad, s.rejectsUpTo, s.refusedUpTo, s.job.lo, s.job.hi);
  }

  /** Every step, a crash included, keeps the store a pass in order. */
  lemma NextInv(log: seq<Record>, bad: Refuses, s: Sys, l: Label)
    requires Inv(log, bad, s) && Enabled(log, bad, s, l)
    ensures Inv(log, bad, Next(log, bad, s, l))
  {
    if l.SaveRejects? || l.RejectsSaved? || l.SaveRefused? || l.RefusedSaved? {
      SaveInv(log, bad, s, l);
    } else if l.InsertBatch? {
      InsertBatchInv(log, bad, s);
    } else if l.InsertRow? {
      InsertRowInv(log, bad, s);
    } else if l.BatchUnheard? || l.RowUnheard? {
      UnheardInv(log, bad, s, l);
    }
  }

  // ------------------------------------------------------------------ every run

  /** A run: every label is enabled where it is taken. */
  ghost predicate Run(log: seq<Record>, bad: Refuses, labels: seq<Label>, states: seq<Sys>) {
    && |states| == |labels| + 1 && states[0] == Initial
    && forall i :: 0 <= i < |labels| ==>
         Enabled(log, bad, states[i], labels[i]) && states[i + 1] == Next(log, bad, states[i], labels[i])
  }

  lemma {:induction false} RunInv(log: seq<Record>, bad: Refuses, labels: seq<Label>, states: seq<Sys>, n: nat)
    requires Run(log, bad, labels, states) && n < |states|
    ensures Inv(log, bad, states[n])
  {
    if n == 0 {
      assert RowsOf(log, bad, 0) == [] && PassRejects(log, bad, 0, 0) == map[];
    } else {
      RunInv(log, bad, labels, states, n - 1);
      NextInv(log, bad, states[n - 1], labels[n - 1]);
    }
  }

  /** A record is accounted for: its reject is recorded, or it counts for nothing, or its event or request has a row. */
  ghost predicate Accounted(log: seq<Record>, bad: Refuses, s: Sys, i: nat)
    requires i < |log|
  {
    match log[i]
    case Skip => true
    case Reject(reason) => i in s.rejects && s.rejects[i] == reason
    case Usage(row) => if bad(row) then i in s.rejects && s.rejects[i] == REJECT_INVALID else Conflicts(s.rows, row)
  }

  /** Crash and replay are exact in every run: the stored rows are those of one pass in order, and so are the rejects of
      either kind, however far each has got; and every record below the committed offset is already accounted for. */
  lemma CrashAndReplayAreExact(log: seq<Record>, bad: Refuses, labels: seq<Label>, states: seq<Sys>, n: nat)
    requires Run(log, bad, labels, states) && n < |states|
    ensures var s := states[n];
            && s.rowsUpTo <= |log| && s.rows == RowsOf(log, bad, s.rowsUpTo)
            && s.rejects == RejectsIn(log, 0, s.rejectsUpTo) + RefusedIn(log, bad, 0, s.refusedUpTo)
            && s.committed <= s.rowsUpTo && s.committed <= s.rejectsUpTo && s.committed <= s.refusedUpTo
            && forall i: nat :: i < s.committed && i < |log| ==> Accounted(log, bad, s, i)
  {
    var s := states[n];
    RunInv(log, bad, labels, states, n);
    forall i: nat | i < s.committed && i < |log| ensures Accounted(log, bad, s, i) {
      if log[i].Usage? && !bad(log[i].row) { SeenConflicts(log, bad, s.rowsUpTo, i); }
    }
  }

  /** When the whole partition is committed, the store is exactly that of one pass without a crash. */
  lemma FinishedIsOnePass(log: seq<Record>, bad: Refuses, labels: seq<Label>, states: seq<Sys>, n: nat)
    requires Run(log, bad, labels, states) && n < |states| && states[n].committed == |log|
    ensures states[n].rows == RowsOf(log, bad, |log|) && states[n].rejects == RejectsIn(log, 0, |log|)
        + RefusedIn(log, bad, 0, |log|)
  {
    var s := states[n];
    RunInv(log, bad, labels, states, n);
    assert s.rowsUpTo == |log| && s.rejectsUpTo == |log| && s.refusedUpTo == |log|;
  }

  ghost predicate KeysUnique(rows: seq<Row>) {
    forall i, j :: 0 <= i < j < |rows| ==> rows[i].eventId != rows[j].eventId && rows[i].requestId != rows[j].requestId
  }

  lemma InsertKeepsUnique(rows: seq<Row>, r: Row)
    requires KeysUnique(rows)
    ensures KeysUnique(InsertOne(rows, r))
  {
  }

  /** One usage row per event and per request, whatever was delivered how often. */
  lemma {:induction false} KeysStayUnique(log: seq<Record>, bad: Refuses, n: nat)
    requires n <= |log|
    ensures KeysUnique(RowsOf(log, bad, n))
  {
    if n > 0 {
      KeysStayUnique(log, bad, n - 1);
      if log[n - 1].Usage? { InsertKeepsUnique(RowsOf(log, bad, n - 1), log[n - 1].row); }
    }
  }

  // ------------------------------------------------------------------ the implementation

  lemma RejectsStep(log: seq<Record>, lo: nat, i: nat)
    requires lo <= i < |log|
    ensures RejectsIn(log, lo, i + 1) == if log[i].Reject? then RejectsIn(log, lo, i)[i := log[i].reason]
        else RejectsIn(log, lo, i)
    ensures log[i].Reject? ==> |RejectsIn(log, lo, i + 1)| == |RejectsIn(log, lo, i)| + 1
  {
  }

  /** Sort a batch into rows, rejects and skips, and find the offset to commit. */
  method Sort(log: seq<Record>, lo: nat, hi: nat)
      returns (rows: seq<Row>, rejects: map<nat, string>, skipped: nat, next: nat)
    requires lo < hi <= |log|
    ensures rows == BatchRows(log, lo, hi) && rejects == RejectsIn(log, lo, hi) && next == hi
    ensures |rows| + |rejects| + skipped == hi - lo
  {
    rows, rejects, skipped, next := [], map[], 0, 0;
    for i := lo to hi
      invariant rows == BatchRows(log, lo, i) && rejects == RejectsIn(log, lo, i) && |rows| + |rejects| + skipped
          == i - lo
      invariant next <= i && (i > lo ==> next == i)
    {
      if i + 1 > next { next := i + 1; }
      RejectsStep(log, lo, i);
      match log[i]
      case Reject(reason) => rejects := rejects[i := reason];
      case Skip => skipped := skipped + 1;
      case Usage(row) => rows := rows + [row];
    }
  }

  /** The refused rows of a batch, by offset. */
  function RefusedRows(bad: Refuses, rs: seq<Row>): map<nat, string> {
    if rs == [] then map[]
    else
      var before, r := RefusedRows(bad, rs[..|rs| - 1]), rs[|rs| - 1];
      if bad(r) then before[r.offset := REJECT_INVALID] else before
  }

  /** A row is inserted, or refused, or neither, but not both. */
  lemma {:induction false} InsertedOrRefused(bad: Refuses, rows: seq<Row>, rs: seq<Row>)
    ensures 0 <= |InsertGood(bad, rows, rs)| - |rows| && |InsertGood(bad, rows, rs)| - |rows|
        + |RefusedRows(bad, rs)| <= |rs|
  {
    if rs != [] { InsertedOrRefused(bad, rows, rs[..|rs| - 1]); }
  }

  lemma RefusedStep(log: seq<Record>, bad: Refuses, lo: nat, hi: nat)
    requires Partition(log) && lo < hi <= |log|
    ensures var before := RefusedIn(log, bad, lo, hi - 1);
            RefusedIn(log, bad, lo, hi) == if Refused(log, bad, hi - 1) then before[hi - 1 := REJECT_INVALID]
                else before
    ensures var before := RefusedRows(bad, BatchRows(log, lo, hi - 1));
            RefusedRows(bad, BatchRows(log, lo, hi)) == if Refused(log, bad, hi - 1)
                then before[hi - 1 := REJECT_INVALID] else before
  {
    var rs := BatchRows(log, lo, hi - 1);
    if log[hi - 1].Usage? { assert (rs + [log[hi - 1].row])[..|rs|] == rs; } else { assert rs + [] == rs; }
  }

  lemma {:induction false} RefusedAreRecords(log: seq<Record>, bad: Refuses, lo: nat, hi: nat)
    requires Partition(log) && lo <= hi <= |log|
    ensures RefusedRows(bad, BatchRows(log, lo, hi)) == RefusedIn(log, bad, lo, hi)
  {
    if lo < hi {
      RefusedAreRecords(log, bad, lo, hi - 1);
      RefusedStep(log, bad, lo, hi);
    }
  }

  lemma OneMoreRow(bad: Refuses, rows: seq<Row>, rs: seq<Row>, i: nat)
    requires i < |rs|
    ensures var before := InsertGood(bad, rows, rs[..i]); InsertGood(bad, rows, rs[..i + 1]) == if bad(rs[i])
        then before else InsertOne(before, rs[i])
    ensures var before := RefusedRows(bad, rs[..i]); RefusedRows(bad, rs[..i + 1]) == if bad(rs[i])
        then before[rs[i].offset := REJECT_INVALID] else before
  {
    assert rs[..i + 1][..i] == rs[..i];
  }

  /** Row by row: only the refused rows are rejected. */
  method InsertOneByOne(bad: Refuses, rows: seq<Row>, rs: seq<Row>)
      returns (out: seq<Row>, n: int, refused: map<nat, string>)
    ensures out == InsertGood(bad, rows, rs) && refused == RefusedRows(bad, rs) && n == |out| - |rows|
  {
    out, n, refused := rows, 0, map[];
    for i := 0 to |rs|
      invariant out == InsertGood(bad, rows, rs[..i]) && refused == RefusedRows(bad, rs[..i]) && n == |out| - |rows|
    {
      OneMoreRow(bad, rows, rs, i);
      var r := rs[i];
      if bad(r) {
        refused := refused[r.offset := REJECT_INVALID];
      } else if !Conflicts(out, r) {
        out, n := out + [r], n + 1;
      }
    }
    assert rs[..|rs|] == rs;
  }

  class Worker {
    const bad: Refuses
    var rows: seq<Row>
    var rejects: map<nat, string>
    var committed: nat
    var inserted: nat
    var duplicate: nat
    var skipped: nat
    var rejected: nat

    constructor (bad: Refuses)
      ensures this.bad == bad && rows == [] && rejects == map[] && committed == 0
      ensures inserted == duplicate == skipped == rejected == 0
    {
      this.bad := bad;
      rows, rejects, committed := [], map[], 0;
      inserted, duplicate, skipped, rejected := 0, 0, 0, 0;
    }

    /** One transaction: all rows or, when the database refuses one, none. */
    method InsertUsage(rs: seq<Row>) returns (ok: bool, n: int)
      modifies this`rows
      ensures ok <==> forall r :: r in rs ==> !bad(r)
      ensures rows == if ok then InsertAll(old(rows), rs) else old(rows)
      ensures n == |rows| - |old(rows)|
    {
      var work := rows;
      n := 0;
      for i := 0 to |rs|
        invariant work == InsertAll(rows, rs[..i]) && n == |work| - |rows| && rows == old(rows)
        invariant forall j :: 0 <= j < i ==> !bad(rs[j])
      {
        assert rs[..i + 1][..i] == rs[..i];
        if bad(rs[i]) { return false, 0; }
        if !Conflicts(work, rs[i]) { work, n := work + [rs[i]], n + 1; }
      }
      assert rs[..|rs|] == rs;
      rows, ok := work, true;
    }

    /** Write the rows of a batch: together, or row by row when some row is refused. */
    method Insert(rs: seq<Row>) returns (n: int, refused: map<nat, string>)
      modifies this`rows, this`rejects
      ensures rows == InsertGood(bad, old(rows), rs) && n == |rows| - |old(rows)|
      ensures refused == RefusedRows(bad, rs) && rejects == AddRejects(old(rejects), refused)
    {
      var ok;
      ok, n := InsertUsage(rs);
      refused := map[];
      if ok {
        GoodIsAll(bad, old(rows), rs);
        NoneRefusedRows(bad, rs);
      } else {
        rows, n, refused := InsertOneByOne(bad, rows, rs);
        rejects := AddRejects(rejects, refused);
      }
    }

    /** One batch made durable. The four results together are the size of the batch. */
    method MakeDurable(log: seq<Record>, lo: nat, hi: nat)
        returns (added: nat, again: nat, skips: nat, rejs: nat, next: nat)
      requires Partition(log) && lo < hi <= |log|
      modifies this`rows, this`rejects
      ensures rows == InsertGood(bad, old(rows), BatchRows(log, lo, hi)) && next == hi
      ensures rejects == AddRejects(AddRejects(old(rejects), RejectsIn(log, lo, hi)), RefusedIn(log, bad, lo, hi))
      ensures added == |rows| - |old(rows)| && added + again + skips + rejs == hi - lo
    {
      var rs, rej;
      rs, rej, skips, next := Sort(log, lo, hi);
      rejects := AddRejects(rejects, rej);
      InsertedOrRefused(bad, rows, rs);
      RefusedAreRecords(log, bad, lo, hi);
      var n, refused := Insert(rs);
      added, again, rejs := n, |rs| - |refused| - n, |rej| + |refused|;
    }

    /** A whole batch: durable first, then counted, then committed. Over what any earlier pass had stored, the store
        becomes that of the longer pass. */
    method Process(log: seq<Record>, lo: nat, hi: nat, ghost h: nat, ghost n: nat, ghost m: nat)
      requires Partition(log) && lo < hi <= |log| && lo <= h <= |log| && lo <= n && lo <= m
      requires rows == RowsOf(log, bad, h) && rejects == PassRejects(log, bad, n, m)
      modifies this
      ensures rows == RowsOf(log, bad, Max(h, hi)) && rejects == PassRejects(log, bad, Max(n, hi), Max(m, hi))
          && committed == hi
      ensures inserted - old(inserted) == |rows| - |old(rows)|
      ensures inserted + duplicate + skipped + rejected == old(inserted + duplicate + skipped + rejected) + (hi - lo)
    {
      ReplayBatch(log, bad, h, lo, hi);
      RejectsAgain(log, bad, n, m, lo, hi);
      RefusedAgain(log, bad, Max(n, hi), m, lo, hi);
      var added, again, skips, rejs, next := MakeDurable(log, lo, hi);
      inserted, duplicate, skipped, rejected := inserted + added, duplicate + again, skipped + skips, rejected + rejs;
      committed := next;
    }
  }

  lemma {:induction false} NoneRefusedRows(bad: Refuses, rs: seq<Row>)
    requires forall r :: r in rs ==> !bad(r)
    ensures RefusedRows(bad, rs) == map[]
  {
    if rs != [] { NoneRefusedRows(bad, rs[..|rs| - 1]); }
  }
}
