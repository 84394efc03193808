/** The two losing events are real: concrete runs of the gateway, one worker with one slot, that end with a waiter
    asleep beside a free slot. */
module LostWakeupRuns {
  import opened Prelude
  import opened AdmissionQueue
  import opened Slots
  import opened LostWakeups

  const P: Params := Params(10, 0.0, 0)
  const CAP: map<Worker, int> := map["w" := 1]
  const ELIGIBLE: seq<Worker> := ["w"]
  const VIEW: Slots.View := Slots.View({"w"}, map[])

  ghost predicate Stranded(s: Sys) {
    s.q.line.ws != [] && AllAsleep(s.q.line.ws) && FreeSlots(ELIGIBLE, CAP, s) > 0
  }

  ghost predicate Step(s: Sys, l: Label, t: Sys) { Next(P, CAP, s, l, t) && Steady(ELIGIBLE, s, l) }

  lemma Extend(states: seq<Sys>, labels: seq<Label>, l: Label, t: Sys)
    requires SteadyRun(P, ELIGIBLE, CAP, states, labels) && Step(states[|states| - 1], l, t)
    ensures SteadyRun(P, ELIGIBLE, CAP, states + [t], labels + [l])
  {
  }

  function Idle(id: WaiterId): Waiter { Waiter(id, "", false, None) }

  /** One request runs, waiter 0 waits behind it and has been asked to route by a refresh. */
  const One: Sys := Sys(State(Nobody, map[], 0, false), map[], map["w" := 1], map[0 := Live("w", None)], 1, None, [])
  const Two: Sys := One.(q := State(Line([Idle(0)], map[], 0), map[], 1, false), pc := map[0 := Waiting])
  const Woken: Sys := Two.(q := Two.q.(line := Line([Asked], map[], 0)))

  const Asked: Waiter := Waiter(0, "", true, Some(Reroute))

  lemma Opening() returns (states: seq<Sys>, labels: seq<Label>)
    ensures SteadyRun(P, ELIGIBLE, CAP, states, labels) && states[|states| - 1] == Woken
  {
    assert HasRoom(Initial, CAP, VIEW, "w");
    RouseSingle(Idle(0), 1, None);
    states, labels := [Initial], [];
    Extend(states, labels, ArriveRoute(VIEW, "w"), One);
    states, labels := states + [One], labels + [ArriveRoute(VIEW, "w")];
    Extend(states, labels, ArriveFull("", VIEW, true), Two);
    states, labels := states + [Two], labels + [ArriveFull("", VIEW, true)];
    Extend(states, labels, WakeStep(1), Woken);
    states, labels := states + [Woken], labels + [WakeStep(1)];
  }

  // ---- the arrival that saw waiters enqueues after the last of them left

  const Freed: Sys := Woken.(q := Woken.q.(line := Line([Asked], map[], 1)), inflight := map[], live := map[])
  const SawBusy: Sys := Freed.(arriving := Some(""))
  const Emptied: Sys := SawBusy.(q := State(Nobody, map[0 := None], 1, false), pc := map[0 := Finished])
  const LateJoin: Sys :=
    Emptied.(q := State(Line([Idle(1)], map[], 0), map[0 := None], 2, false), pc := map[0 := Finished, 1 := Waiting],
        arriving := None)

  /** The slot is released while the only waiter routes: it is banked and freed. */
  lemma ReleaseBanks()
    ensures Step(Woken, Release(0, true), Freed)
  {
    RouseSingle(Asked, 1, None);
    assert Give(Woken, 0, true) == Freed;
  }

  lemma LastWaiterLeaves()
    ensures Step(SawBusy, GiveUp(0), Emptied)
  {
    assert Pos([Asked], 0) == 0;
  }

  lemma LateArrivalJoins()
    ensures Step(Freed, ArriveBusy("", VIEW), SawBusy)
    ensures Step(Emptied, EnqueueBusy(true), LateJoin)
  {
  }

  lemma EmptiedQueueStrands() returns (states: seq<Sys>, labels: seq<Label>)
    ensures SteadyRun(P, ELIGIBLE, CAP, states, labels)
    ensures Stranded(states[|states| - 1])
  {
    ReleaseBanks();
    LastWaiterLeaves();
    LateArrivalJoins();
    states, labels := Opening();
    Extend(states, labels, Release(0, true), Freed);
    states, labels := states + [Freed], labels + [Release(0, true)];
    Extend(states, labels, ArriveBusy("", VIEW), SawBusy);
    states, labels := states + [SawBusy], labels + [ArriveBusy("", VIEW)];
    Extend(states, labels, GiveUp(0), Emptied);
    states, labels := states + [Emptied], labels + [GiveUp(0)];
    Extend(states, labels, EnqueueBusy(true), LateJoin);
    states, labels := states + [LateJoin], labels + [EnqueueBusy(true)];
    assert FreeSlots(ELIGIBLE, CAP, LateJoin) == 1;
  }

  // ---- the client of a routing waiter left, so its routing looks at nothing

  const Reading: Sys := Woken.(q := Woken.q.(line := Line([Waiter(0, "", true, None)], map[], 0)),
      pc := map[0 := Routing])
  const Banked: Sys := Reading.(q := Reading.q.(line := Line([Waiter(0, "", true, None)], map[], 1)), inflight := map[],
      live := map[])
  const Second: Sys := Banked.(arriving := Some(""))
  const Behind: Sys :=
    Banked.(q := State(Line([Waiter(0, "", true, None), Idle(1)], map[], 1), map[], 2, false),
        pc := map[0 := Routing, 1 := Waiting])
  const Looked: Sys := Behind.(pc := map[0 := NoSlot, 1 := Waiting])
  const Again: Sys := Behind.(q := Behind.q.(line := Line([Waiter(0, "", true, None), Idle(1)], map[], 0)))
  const Failed: Sys := Again.(pc := map[0 := NoSlot, 1 := Waiting])
  const Asleep: Sys := Failed.(q := Failed.q.(line := Line([Idle(0), Idle(1)], map[], 0)),
      pc := map[0 := Waiting, 1 := Waiting])

  lemma RouseHead(w: Waiter, rest: seq<Waiter>, self: Option<WaiterId>)
    requires !w.woken
    ensures Rouse([w] + rest, 1, self) == ([Told(w, self)] + rest, 0)
  {
    assert ([w] + rest)[1..] == rest;
  }

  lemma BusyRelease()
    ensures Step(Woken, Read(0), Reading)
    ensures Step(Reading, Release(0, true), Banked)
  {
    assert Pos([Asked], 0) == 0;
    RouseSingle(Waiter(0, "", true, None), 1, None);
    assert Give(Reading, 0, true) == Banked;
  }

  lemma ParkOnCredit()
    ensures Step(Looked, ParkStep(0), Again)
  {
    var ws := Looked.q.line.ws;
    assert Pos(ws, 0) == 0 && ws[0 := Idle(0)] == [Idle(0)] + [Idle(1)];
    RouseHead(Idle(0), [Idle(1)], Some(0));
    assert [Waiter(0, "", true, None)] + [Idle(1)] == [Waiter(0, "", true, None), Idle(1)];
  }

  lemma ParkAsleep()
    ensures Step(Failed, ParkStep(0), Asleep)
  {
    assert Pos(Failed.q.line.ws, 0) == 0;
  }

  lemma SecondWaiterJoins()
    ensures Step(Banked, ArriveBusy("", VIEW), Second)
    ensures Step(Second, EnqueueBusy(true), Behind)
    ensures Step(Behind, RouteCancelled(0), Looked)
    ensures Step(Again, RouteCancelled(0), Failed)
  {
  }

  /** A second waiter is accepted while a banked slot waits for the routing head. */
  lemma SecondWaiterBehind() returns (states: seq<Sys>, labels: seq<Label>)
    ensures SteadyRun(P, ELIGIBLE, CAP, states, labels) && states[|states| - 1] == Behind
  {
    BusyRelease();
    SecondWaiterJoins();
    states, labels := Opening();
    Extend(states, labels, Read(0), Reading);
    states, labels := states + [Reading], labels + [Read(0)];
    Extend(states, labels, Release(0, true), Banked);
    states, labels := states + [Banked], labels + [Release(0, true)];
    Extend(states, labels, ArriveBusy("", VIEW), Second);
    states, labels := states + [Second], labels + [ArriveBusy("", VIEW)];
    Extend(states, labels, EnqueueBusy(true), Behind);
    states, labels := states + [Behind], labels + [EnqueueBusy(true)];
  }

  lemma CancelledRoutingStrands() returns (states: seq<Sys>, labels: seq<Label>)
    ensures SteadyRun(P, ELIGIBLE, CAP, states, labels)
    ensures Stranded(states[|states| - 1])
  {
    SecondWaiterJoins();
    ParkOnCredit();
    ParkAsleep();
    states, labels := SecondWaiterBehind();
    Extend(states, labels, RouteCancelled(0), Looked);
    states, labels := states + [Looked], labels + [RouteCancelled(0)];
    Extend(states, labels, ParkStep(0), Again);
    states, labels := states + [Again], labels + [ParkStep(0)];
    Extend(states, labels, RouteCancelled(0), Failed);
    states, labels := states + [Failed], labels + [RouteCancelled(0)];
    Extend(states, labels, ParkStep(0), Asleep);
    states, labels := states + [Asleep], labels + [ParkStep(0)];
    assert FreeSlots(ELIGIBLE, CAP, Asleep) == 1;
  }
}
