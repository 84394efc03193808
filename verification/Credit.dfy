/** Banked slots (internal/resilience/queue.go): credit is spent on an idle waiter the moment one exists, except by an
    arrival, and a unit may reach a later waiter while an earlier one is still routing. Each is shown with the exact
    condition and a run. */
module Credit {
  import opened Prelude
  import opened AdmissionQueue
  import opened Slots
  import opened SlotsSafety
  import opened LostWakeups
  import opened LostWakeupRuns

  /** No credit is left beside an idle waiter. */
  ghost predicate Spent(line: Line) { line.credit > 0 ==> forall i :: 0 <= i < |line.ws| ==> line.ws[i].woken }

  /** A new waiter is accepted behind others while credit is banked. */
  predicate JoinsBesideCredit(p: Params, s: Sys, l: Label) {
    l.EnqueueBusy? && s.arriving.Some? && s.q.line.credit > 0 && Refusal(p, s.q, s.arriving.value, l.room).None?
  }

  lemma SettleSpends(line: Line, self: Option<WaiterId>)
    ensures Spent(Settle(line, self))
  {
    RouseRouses(line.ws, line.credit, self);
  }

  lemma JoinSpends(p: Params, s: Sys, tenant: string, room: bool)
    requires Spent(s.q.line)
    ensures Spent(Slots.Join(s, p, tenant, room).q.line)
        <==> s.q.line.credit == 0 || Refusal(p, s.q, tenant, room).Some?
  {
    if Refusal(p, s.q, tenant, room).None? {
      var t := Slots.Join(s, p, tenant, room);
      assert !t.q.line.ws[|s.q.line.ws|].woken;
    }
  }

  lemma WakeSpends(s: State, n: int)
    requires Spent(s.line)
    ensures Spent(Wake(s, n).0.line)
  {
    if n > 0 { RouseRouses(s.line.ws, n, None); }
  }

  lemma HandOverSpends(p: Params, s: State, value: Value)
    requires Inv(p, s) && Spent(s.line)
    ensures Spent(HandOver(s, value).0.line)
  {
    if s.line.ws != [] && s.line.ws[0].woken { SettleSpends(Bank(s.line), None); }
  }

  lemma LeaveSpends(s: State, id: WaiterId, giveBack: bool)
    requires Spent(s.line)
    ensures Spent(Q.Leave(s, id, giveBack).0.line)
  {
    var k := Pos(s.line.ws, id);
    if k < |s.line.ws| {
      var rest := Unlink(s.line, k);
      SettleSpends(if giveBack && s.line.ws[k].woken && rest.ws != [] then Bank(rest) else rest, None);
    }
  }

  lemma ParkSpends(s: State, id: WaiterId)
    requires Spent(s.line)
    ensures Spent(Q.Park(s, id).0.line)
  {
    var k := Pos(s.line.ws, id);
    if k < |s.line.ws| {
      SettleSpends(s.line.(ws := s.line.ws[k := s.line.ws[k].(woken := false)]), Some(s.line.ws[k].id));
    }
  }

  lemma ReceiveSpends(s: State, id: WaiterId)
    requires Spent(s.line)
    ensures Spent(Receive(s, id).line)
  {
  }

  lemma ReleaseSpends(p: Params, s: Sys, slot: Slot, ok: bool)
    requires Base(p, s) && Spent(s.q.line) && slot in s.live
    ensures Spent(Give(s, slot, ok).q.line)
  {
    if s.q.line.ws != [] && ok { HandOverSpends(p, s.q, s.nextSlot); }
  }

  /** The steps of one waiter. */
  lemma WaiterSpends(p: Params, cap: map<Worker, int>, s: Sys, l: Label, t: Sys)
    requires Spent(s.q.line) && Next(p, cap, s, l, t)
        && (l.Read? || l.DoneStep? || l.ParkStep? || l.GiveUp? || l.Panic?)
    ensures Spent(t.q.line)
  {
    if l.Read? { ReceiveSpends(s.q, l.id); }
    else if l.DoneStep? { LeaveSpends(s.q, l.id, false); }
    else if l.ParkStep? { ParkSpends(s.q, l.id); }
    else { LeaveSpends(s.q, l.id, true); }
  }

  /** One step keeps credit spent if and only if it does not accept a waiter beside banked credit. */
  lemma NextSpends(p: Params, cap: map<Worker, int>, s: Sys, l: Label, t: Sys)
    requires Base(p, s) && Spent(s.q.line) && Next(p, cap, s, l, t)
    ensures Spent(t.q.line) <==> !JoinsBesideCredit(p, s, l)
  {
    if l.EnqueueBusy? { JoinSpends(p, s, s.arriving.value, l.room); }
    else if l.ArriveFull? { JoinSpends(p, s, l.tenant, l.room); }
    else if l.Release? { if l.slot in s.live { ReleaseSpends(p, s, l.slot, l.ok); } }
    else if l.WakeStep? { WakeSpends(s.q, l.n); }
    else if l.Read? || l.DoneStep? || l.ParkStep? || l.GiveUp? || l.Panic? { WaiterSpends(p, cap, s, l, t); }
  }

  lemma {:induction false} SpentSoFar(p: Params, cap: map<Worker, int>, states: seq<Sys>, labels: seq<Label>, i: nat)
    requires Run(p, cap, states, labels) && i < |states|
    requires forall k :: 0 <= k < i ==> !JoinsBesideCredit(p, states[k], labels[k])
    ensures Spent(states[i].q.line)
  {
    if i > 0 {
      SpentSoFar(p, cap, states, labels, i - 1);
      RunsAreSafe(p, cap, states, labels, i - 1);
      NextSpends(p, cap, states[i - 1], labels[i - 1], states[i]);
    }
  }

  /** In every run, credit never stays beside an idle waiter if and only if nobody is accepted while credit is banked.
      */
  lemma CreditIsSpent(p: Params, cap: map<Worker, int>, states: seq<Sys>, labels: seq<Label>)
    requires Run(p, cap, states, labels)
    ensures (forall i :: 0 <= i < |states| ==> Spent(states[i].q.line))
       <==> (forall i :: 0 <= i < |labels| ==> !JoinsBesideCredit(p, states[i], labels[i]))
  {
    if forall i :: 0 <= i < |labels| ==> !JoinsBesideCredit(p, states[i], labels[i]) {
      forall i | 0 <= i < |states| ensures Spent(states[i].q.line) { SpentSoFar(p, cap, states, labels, i); }
    } else {
      var i :| 0 <= i < |labels| && JoinsBesideCredit(p, states[i], labels[i]);
      RunsAreSafe(p, cap, states, labels, i);
      if Spent(states[i].q.line) { NextSpends(p, cap, states[i], labels[i], states[i + 1]); }
      assert !Spent(states[i].q.line) || !Spent(states[i + 1].q.line);
    }
  }

  /** A run that ends with a unit of credit beside a sleeping waiter. */
  lemma CreditBesideASleeper() returns (states: seq<Sys>, labels: seq<Label>)
    ensures SteadyRun(P, ELIGIBLE, CAP, states, labels) && !Spent(states[|states| - 1].q.line)
  {
    states, labels := SecondWaiterBehind();
    assert !Behind.q.line.ws[1].woken;
  }

  // ------------------------------------------------------------------ in which order units are spent

  /** A waiter that was idle has been told although an earlier one was already routing. */
  ghost predicate Overtakes(ws: seq<Waiter>, after: seq<Waiter>) {
    |after| == |ws| && exists i, j :: 0 <= i < j < |ws| && ws[i].woken && !ws[j].woken && after[j].woken
  }

  /** No unit passes an idle waiter: whoever is told, everyone before is routing. */
  lemma SpentInOrder(line: Line, self: Option<WaiterId>, i: nat, j: nat)
    requires i < j < |line.ws| && !line.ws[j].woken
    ensures |Settle(line, self).ws| == |line.ws|
    ensures Settle(line, self).ws[j].woken ==> Settle(line, self).ws[i].woken
  {
    RouseReaches(line.ws, line.credit, self, i);
    RouseReaches(line.ws, line.credit, self, j);
    IdlesGrow(line.ws, i, j);
  }

  lemma {:induction false} IdlesGrow(ws: seq<Waiter>, i: nat, j: nat)
    requires i <= j <= |ws|
    ensures Idles(ws[..i]) <= Idles(ws[..j])
  {
    if i > 0 {
      assert ws[..i][1..] == ws[1..][..i - 1] && ws[..j][1..] == ws[1..][..j - 1];
      IdlesGrow(ws[1..], i - 1, j - 1);
    }
  }

  /** Exactly when settling reaches a waiter that arrived after one still routing: an idle waiter stands behind a
      routing one, and the credit exceeds the idle waiters before it. */
  lemma SettleOvertakes(line: Line, self: Option<WaiterId>)
    ensures Overtakes(line.ws, Settle(line, self).ws)
       <==> exists i, j :: 0 <= i < j < |line.ws| && line.ws[i].woken && !line.ws[j].woken
                           && Idles(line.ws[..j]) < line.credit
  {
    RouseLeft(line.ws, line.credit, self);
    forall j | 0 <= j < |line.ws| ensures Settle(line, self).ws[j].woken
        <==> line.ws[j].woken || Idles(line.ws[..j]) < line.credit {
      RouseReaches(line.ws, line.credit, self, j);
    }
  }

  /** A release beside a routing head reaches a later waiter exactly when one is idle. */
  lemma HandOverOvertakes(p: Params, s: State, value: Value)
    requires Inv(p, s) && s.line.ws != [] && s.line.ws[0].woken
    ensures Overtakes(s.line.ws, HandOver(s, value).0.line.ws) <==> exists j :: 0 <= j < |s.line.ws|
                                                                                && !s.line.ws[j].woken
  {
    var line := Bank(s.line);
    SettleOvertakes(line, None);
    if exists j :: 0 <= j < |s.line.ws| && !s.line.ws[j].woken {
      var j := FirstIdle(s.line.ws);
      NoIdles(s.line.ws, j);
      assert line.ws[0].woken && !line.ws[j].woken && Idles(line.ws[..j]) < line.credit;
    }
  }

  lemma {:induction false} FirstIdle(ws: seq<Waiter>) returns (j: nat)
    requires exists j :: 0 <= j < |ws| && !ws[j].woken
    ensures j < |ws| && !ws[j].woken && forall i :: 0 <= i < j ==> ws[i].woken
  {
    if !ws[0].woken { j := 0; } else {
      var k :| 0 <= k < |ws| && !ws[k].woken;
      assert !ws[1..][k - 1].woken;
      var i := FirstIdle(ws[1..]);
      j := i + 1;
    }
  }

  lemma {:induction false} NoIdles(ws: seq<Waiter>, j: nat)
    requires j <= |ws| && forall i :: 0 <= i < j ==> ws[i].woken
    ensures Idles(ws[..j]) == 0
  {
    if j > 0 {
      assert ws[..j][1..] == ws[1..][..j - 1];
      NoIdles(ws[1..], j - 1);
    }
  }

  // ---- a run in which a unit goes to the second waiter while the first routes

  const ROUTING: Waiter := Waiter(0, "", true, None)
  const Arriving: Sys := Reading.(arriving := Some(""))
  const Pair: Sys := Reading.(q := State(Line([ROUTING, Idle(1)], map[], 0), map[], 2, false),
      pc := map[0 := Routing, 1 := Waiting])
  const Passed: Sys :=
    Pair.(q := Pair.q.(line := Line([ROUTING, Told(Idle(1), None)], map[], 0)), inflight := map[], live := map[])

  lemma PairForms()
    ensures Step(Reading, ArriveBusy("", VIEW), Arriving) && Step(Arriving, EnqueueBusy(true), Pair)
  {
  }

  lemma UnitPasses()
    ensures Step(Pair, Release(0, true), Passed)
  {
    var ws := [ROUTING, Idle(1)];
    assert ws[1..] == [Idle(1)];
    RouseSingle(Idle(1), 1, None);
    assert Rouse(ws, 1, None) == ([ROUTING] + [Told(Idle(1), None)], 0);
    assert Give(Pair, 0, true) == Passed;
  }

  /** A complete run whose last step spends a unit on a waiter that arrived later while an earlier one is still
      routing. */
  lemma LaterWaiterIsTold() returns (states: seq<Sys>, labels: seq<Label>)
    ensures SteadyRun(P, ELIGIBLE, CAP, states, labels) && |states| > 1
    ensures Overtakes(states[|states| - 2].q.line.ws, states[|states| - 1].q.line.ws)
  {
    BusyRelease();
    PairForms();
    UnitPasses();
    states, labels := Opening();
    Extend(states, labels, Read(0), Reading);
    states, labels := states + [Reading], labels + [Read(0)];
    Extend(states, labels, ArriveBusy("", VIEW), Arriving);
    states, labels := states + [Arriving], labels + [ArriveBusy("", VIEW)];
    Extend(states, labels, EnqueueBusy(true), Pair);
    states, labels := states + [Pair], labels + [EnqueueBusy(true)];
    Extend(states, labels, Release(0, true), Passed);
    states, labels := states + [Passed], labels + [Release(0, true)];
    assert Pair.q.line.ws[0].woken && !Pair.q.line.ws[1].woken && Passed.q.line.ws[1].woken;
  }
}
