/** What every run of the gateway keeps: waiters and their channels agree with what the goroutines do, every slot is in
    exactly one place and counted once, no worker is over-admitted, and hand-offs follow arrival order. */
module SlotsSafety {
  import opened Prelude
  import opened AdmissionQueue
  import opened Slots

  // ------------------------------------------------------------------ goroutines and channels

  ghost predicate LinePc(w: Waiter, pc: Pc) {
    if w.woken && w.ch == None then pc.Routing? || pc.Routed? || pc.NoSlot? else pc == Waiting
  }

  ghost predicate GonePc(ch: Option<Grant>, pc: Pc) {
    match ch
    case None => pc == Finished
    case Some(Handoff(_)) => pc == Waiting
    case Some(Flushed) => pc != Finished
    case Some(Reroute) => false
  }

  ghost predicate LineCoupled(ws: seq<Waiter>, pc: map<WaiterId, Pc>) {
    forall i :: 0 <= i < |ws| ==> ws[i].id in pc && LinePc(ws[i], pc[ws[i].id])
  }

  ghost predicate Coupled(s: Sys) {
    && LineCoupled(s.q.line.ws, s.pc)
    && (forall id :: id in s.q.gone ==> id in s.pc && GonePc(s.q.gone[id], s.pc[id]))
    && (forall id :: id in s.pc ==> Has(s.q.line.ws, id) || id in s.q.gone)
  }

  lemma PosHas(ws: seq<Waiter>, id: WaiterId)
    ensures Has(ws, id) <==> Pos(ws, id) < |ws|
  {
    if Pos(ws, id) < |ws| { assert ws[Pos(ws, id)].id == id; }
  }

  /** Same waiters in the same places. */
  lemma SameIds(a: seq<Waiter>, b: seq<Waiter>)
    requires |a| == |b| && forall i :: 0 <= i < |a| ==> a[i].id == b[i].id
    ensures forall id :: Has(a, id) <==> Has(b, id)
  {
    forall id | Has(a, id) ensures Has(b, id) { var i :| 0 <= i < |a| && a[i].id == id; assert b[i].id == id; }
    forall id | Has(b, id) ensures Has(a, id) { var i :| 0 <= i < |b| && b[i].id == id; assert a[i].id == id; }
  }

  lemma RouseCoupled(ws: seq<Waiter>, n: nat, pc: map<WaiterId, Pc>)
    requires LineCoupled(ws, pc)
    ensures LineCoupled(Rouse(ws, n, None).0, pc)
    ensures forall id :: Has(Rouse(ws, n, None).0, id) <==> Has(ws, id)
  {
    RouseRouses(ws, n, None);
    SameIds(ws, Rouse(ws, n, None).0);
  }

  lemma UnlinkAt(line: Line, k: nat, i: nat)
    requires k < |line.ws| && i < |line.ws| - 1
    ensures |Unlink(line, k).ws| == |line.ws| - 1 && Unlink(line, k).ws[i] == line.ws[if i < k then i else i + 1]
  {
  }

  lemma UnlinkHasOne(line: Line, k: nat, id: WaiterId)
    requires InOrder(line.ws) && k < |line.ws|
    ensures Has(Unlink(line, k).ws, id) <==> Has(line.ws, id) && id != line.ws[k].id
  {
    var a, b := line.ws, Unlink(line, k).ws;
    if Has(a, id) && id != a[k].id {
      var i :| 0 <= i < |a| && a[i].id == id;
      UnlinkAt(line, k, if i < k then i else i - 1);
    }
    if Has(b, id) {
      var i :| 0 <= i < |b| && b[i].id == id;
      UnlinkAt(line, k, i);
    }
  }

  lemma UnlinkHas(line: Line, k: nat)
    requires InOrder(line.ws) && k < |line.ws|
    ensures forall id :: Has(Unlink(line, k).ws, id) <==> Has(line.ws, id) && id != line.ws[k].id
  {
    forall id ensures Has(Unlink(line, k).ws, id) <==> Has(line.ws, id) && id != line.ws[k].id {
      UnlinkHasOne(line, k, id);
    }
  }

  lemma UnlinkCoupled(line: Line, k: nat, pc: map<WaiterId, Pc>, out: Pc)
    requires InOrder(line.ws) && k < |line.ws| && LineCoupled(line.ws, pc)
    ensures LineCoupled(Unlink(line, k).ws, pc[line.ws[k].id := out])
  {
    var a, b := line.ws, Unlink(line, k).ws;
    forall i | 0 <= i < |b| ensures b[i].id in pc && b[i].id != a[k].id && LinePc(b[i], pc[b[i].id]) {
      assert b[i] == a[if i < k then i else i + 1];
    }
  }

  lemma DepartedCoupled(line: Line, k: nat, giveBack: bool, pc: map<WaiterId, Pc>, out: Pc)
    requires InOrder(line.ws) && k < |line.ws| && LineCoupled(line.ws, pc)
    ensures LineCoupled(Departed(line, k, giveBack).ws, pc[line.ws[k].id := out])
    ensures forall id :: Has(Departed(line, k, giveBack).ws, id) <==> Has(line.ws, id) && id != line.ws[k].id
  {
    var rest := Unlink(line, k);
    UnlinkCoupled(line, k, pc, out);
    UnlinkHas(line, k);
    RouseCoupled(rest.ws, if giveBack && line.ws[k].woken && rest.ws != [] then rest.credit + 1
        else rest.credit, pc[line.ws[k].id := out]);
  }

  lemma ParkedCoupled(line: Line, k: nat, pc: map<WaiterId, Pc>)
    requires InOrder(line.ws) && k < |line.ws| && LineCoupled(line.ws, pc) && pc[line.ws[k].id] == NoSlot
    ensures LineCoupled(Parked(line, k).ws, pc[line.ws[k].id := if Parked(line, k).ws[k].woken then Routing
        else Waiting])
    ensures forall id :: Has(Parked(line, k).ws, id) <==> Has(line.ws, id)
  {
    var idle := line.ws[k := line.ws[k].(woken := false)];
    RouseRouses(idle, line.credit, Some(line.ws[k].id));
    SameIds(line.ws, Parked(line, k).ws);
  }

  lemma HandOverCoupled(p: Params, s: State, value: Value, pc: map<WaiterId, Pc>)
    requires Inv(p, s) && LineCoupled(s.line.ws, pc)
    ensures var r := HandOver(s, value);
            && LineCoupled(r.0.line.ws, pc)
            && (r.1 ==> s.line.ws != [] && !s.line.ws[0].woken
                        && r.0.gone == s.gone[s.line.ws[0].id := Some(Handoff(value))]
                                && forall id :: Has(r.0.line.ws, id) <==> Has(s.line.ws, id) && id != s.line.ws[0].id)
            && (!r.1 ==> r.0.gone == s.gone && forall id :: Has(r.0.line.ws, id) <==> Has(s.line.ws, id))
  {
    if s.line.ws != [] {
      if s.line.ws[0].woken {
        RouseCoupled(s.line.ws, s.line.credit + 1, pc);
      } else {
        var head := s.line.ws[0].id;
        UnlinkCoupled(s.line, 0, pc, pc[head]);
        assert pc[head := pc[head]] == pc;
        UnlinkHas(s.line, 0);
      }
    }
  }

  ghost predicate Base(p: Params, s: Sys) { Inv(p, s.q) && Coupled(s) }

  lemma JoinBase(p: Params, s: Sys, tenant: string, room: bool)
    requires Base(p, s)
    ensures Base(p, Slots.Join(s, p, tenant, room))
  {
    if Refusal(p, s.q, tenant, room).None? {
      JoinKeeps(p, s.q, tenant, room);
      var t := Slots.Join(s, p, tenant, room);
      var a, b := s.q.line.ws, t.q.line.ws;
      assert b[|a|].id == s.q.next;
      forall id | id in t.pc ensures Has(b, id) || id in t.q.gone {
        if id != s.q.next && Has(a, id) { var i :| 0 <= i < |a| && a[i].id == id; assert b[i].id == id; }
      }
    }
  }

  lemma GiveBase(p: Params, s: Sys, slot: Slot, ok: bool)
    requires Base(p, s) && slot in s.live
    ensures Base(p, Give(s, slot, ok))
  {
    if s.q.line.ws != [] && ok {
      HandOverKeeps(p, s.q, s.nextSlot);
      HandOverCoupled(p, s.q, s.nextSlot, s.pc);
    }
  }

  lemma ReadLine(ws: seq<Waiter>, k: nat, pc: map<WaiterId, Pc>)
    requires InOrder(ws) && k < |ws| && LineCoupled(ws, pc) && ws[k].woken
    ensures LineCoupled(ws[k := ws[k].(ch := None)], pc[ws[k].id := Routing])
    ensures forall id :: Has(ws[k := ws[k].(ch := None)], id) <==> Has(ws, id)
  {
    SameIds(ws, ws[k := ws[k].(ch := None)]);
  }

  lemma ReadGone(s: Sys, id: WaiterId)
    requires Coupled(s) && id in s.q.gone && !Has(s.q.line.ws, id)
    ensures Coupled(s.(q := s.q.(gone := s.q.gone[id := None]), pc := s.pc[id := Finished]))
  {
    forall i | 0 <= i < |s.q.line.ws| ensures s.q.line.ws[i].id != id {}
  }

  lemma ReadBase(p: Params, s: Sys, id: WaiterId)
    requires Base(p, s) && At(s, id, Waiting) && Inbox(s.q, id).Some?
    ensures Base(p, AfterRead(s, id))
  {
    ReceiveKeeps(p, s.q, id);
    assert AfterRead(s, id).q == Receive(s.q, id);
    ReadCoupled(p, s, id);
  }

  lemma ReadCoupled(p: Params, s: Sys, id: WaiterId)
    requires Base(p, s) && At(s, id, Waiting) && Inbox(s.q, id).Some?
    ensures Coupled(AfterRead(s, id))
  {
    var k, ws := Pos(s.q.line.ws, id), s.q.line.ws;
    PosHas(ws, id);
    if k < |ws| { ReadInLine(p, s, k); } else { ReadGone(s, id); }
  }

  lemma ReadInLine(p: Params, s: Sys, k: nat)
    requires Base(p, s) && k < |s.q.line.ws| && s.q.line.ws[k].ch.Some? && Pos(s.q.line.ws, s.q.line.ws[k].id) == k
    ensures Coupled(AfterRead(s, s.q.line.ws[k].id))
  {
    var ws := s.q.line.ws;
    assert ChannelOk(ws[k]) && ws[k].ch == Some(Reroute);
    ReadLine(ws, k, s.pc);
  }

  lemma LeaveBase(p: Params, s: Sys, id: WaiterId, giveBack: bool, t: Sys)
    requires Base(p, s) && id in s.pc
    requires t == Finish(s.(q := Q.Leave(s.q, id, giveBack).0), id)
    ensures Base(p, t)
  {
    LeaveKeeps(p, s.q, id, giveBack);
    PosHas(s.q.line.ws, id);
    var k := Pos(s.q.line.ws, id);
    if k < |s.q.line.ws| {
      DepartedCoupled(s.q.line, k, giveBack, s.pc, Finished);
    } else {
      forall i | 0 <= i < |s.q.line.ws| ensures s.q.line.ws[i].id != id {}
    }
  }

  lemma ParkBase(p: Params, s: Sys, id: WaiterId)
    requires Base(p, s) && At(s, id, NoSlot)
    ensures Base(p, AfterPark(s, id))
  {
    PosHas(s.q.line.ws, id);
    var k, ws := Pos(s.q.line.ws, id), s.q.line.ws;
    if k < |ws| {
      forall w | w in ws && w.id == id ensures w.ch == None { assert LinePc(w, s.pc[id]) && ChannelOk(w); }
      ParkKeeps(p, s.q, id);
      ParkedCoupled(s.q.line, k, s.pc);
    } else {
      ParkGone(s, id);
    }
  }

  lemma ParkGone(s: Sys, id: WaiterId)
    requires Coupled(s) && At(s, id, NoSlot) && !Has(s.q.line.ws, id)
    ensures Coupled(s.(pc := s.pc[id := Waiting]))
  {
    forall i | 0 <= i < |s.q.line.ws| ensures s.q.line.ws[i].id != id {}
  }

  lemma FlushBase(p: Params, s: Sys)
    requires Base(p, s)
    ensures Base(p, s.(q := Flush(s.q)))
  {
    var ws, t := s.q.line.ws, s.(q := Flush(s.q));
    FlushKeeps(p, s.q);
    TellTells(ws, s.q.gone);
    forall id | id in t.q.gone ensures id in t.pc && GonePc(t.q.gone[id], t.pc[id]) {
      if Has(ws, id) { var i :| 0 <= i < |ws| && ws[i].id == id; }
    }
    forall id | id in t.pc ensures id in t.q.gone {
      if Has(ws, id) { var i :| 0 <= i < |ws| && ws[i].id == id; }
    }
  }

  /** A step that only moves one goroutine that is routing. */
  lemma MoveBase(p: Params, s: Sys, id: WaiterId, pc: Pc)
    requires Base(p, s) && At(s, id, Routing) && (pc.Routed? || pc == NoSlot)
    ensures Coupled(s.(pc := s.pc[id := pc]))
  {
    forall i | 0 <= i < |s.q.line.ws| && s.q.line.ws[i].id == id ensures LinePc(s.q.line.ws[i], pc) {
      assert LinePc(s.q.line.ws[i], Routing);
    }
  }

  /** The queue invariant, and the agreement of channels and goroutines, hold in every step. */
  lemma NextBase(p: Params, cap: map<Worker, int>, s: Sys, l: Label, t: Sys)
    requires Base(p, s) && Next(p, cap, s, l, t)
    ensures Base(p, t)
  {
    match l
    case ArriveBusy(_, _) =>
    case EnqueueBusy(room) => JoinBase(p, s, s.arriving.value, room);
    case ArriveRoute(_, _) =>
    case ArriveFull(tenant, _, room) => JoinBase(p, s, tenant, room);
    case Retry(_, _) =>
    case Release(slot, ok) => if slot in s.live { GiveBase(p, s, slot, ok); }
    case Read(id) => ReadBase(p, s, id);
    case RouteOk(id, _, _) => MoveBase(p, s, id, Routed(s.nextSlot));
    case RouteFull(id, _) => MoveBase(p, s, id, NoSlot);
    case RouteCancelled(id) => MoveBase(p, s, id, NoSlot);
    case DoneStep(id) => LeaveBase(p, s, id, false, Finish(s.(q := Q.Leave(s.q, id, false).0), id));
    case ParkStep(id) => ParkBase(p, s, id);
    case GiveUp(id) => LeaveBase(p, s, id, true, Finish(s.(q := Q.Leave(s.q, id, true).0), id));
    case Panic(id) => LeaveBase(p, s, id, true, Finish(s.(q := Q.Leave(s.q, id, true).0), id));
    case WakeStep(n) => WakeKeeps(p, s.q, n); if n > 0 { RouseCoupled(s.q.line.ws, n, s.pc); }
    case FlushStep => FlushBase(p, s);
    case CloseStep =>
  }

  // ------------------------------------------------------------------ every slot is in one place

  /** The waiter has the slot: in its channel, or from its own routing. */
  ghost predicate Carries(s: Sys, id: WaiterId, slot: Slot) {
    (id in s.q.gone && s.q.gone[id] == Some(Handoff(slot))) || (id in s.pc && s.pc[id] == Routed(slot))
  }

  /** A live slot belongs to a running request or travels with exactly the waiter that has it, and nobody has a slot
      that is not live. */
  ghost predicate Located(s: Sys) {
    && (forall x :: x in s.live ==> x < s.nextSlot)
    && (forall x :: x in s.live && s.live[x].owner.Some? ==> Carries(s, s.live[x].owner.value, x))
    && (forall id: WaiterId, x: Slot :: Carries(s, id, x) ==> x in s.live && s.live[x].owner == Some(id))
  }

  /** A step that moves no slot into or out of any waiter's hands. */
  lemma SameCarriers(s: Sys, t: Sys)
    requires Located(s) && t.live == s.live && t.nextSlot == s.nextSlot
    requires forall id: WaiterId, x: Slot :: Carries(t, id, x) <==> Carries(s, id, x)
    ensures Located(t)
  {
  }

  lemma QuietLocated(s: Sys, t: Sys)
    requires Located(s) && t.live == s.live && t.nextSlot == s.nextSlot && t.pc == s.pc && t.q.gone == s.q.gone
    ensures Located(t)
  {
    SameCarriers(s, t);
  }

  lemma MovedLocated(s: Sys, t: Sys, id: WaiterId, pc: Pc)
    requires Located(s) && t.live == s.live && t.nextSlot == s.nextSlot && t.q.gone == s.q.gone
    requires t.pc == s.pc[id := pc] && !pc.Routed? && (id in s.pc ==> !s.pc[id].Routed?)
    ensures Located(t)
  {
    SameCarriers(s, t);
  }

  lemma JoinLocated(p: Params, s: Sys, tenant: string, room: bool)
    requires Base(p, s) && Located(s)
    ensures Located(Slots.Join(s, p, tenant, room))
  {
    assert s.q.next !in s.pc by {
      assert !Has(s.q.line.ws, s.q.next);
    }
    if Refusal(p, s.q, tenant, room).None? { MovedLocated(s, Slots.Join(s, p, tenant, room), s.q.next, Waiting); }
  }

  lemma GiveLocated(p: Params, s: Sys, slot: Slot, ok: bool)
    requires Base(p, s) && Located(s) && slot in s.live && s.live[slot].owner.None?
    ensures Located(Give(s, slot, ok))
  {
    var t := Give(s, slot, ok);
    if s.q.line.ws != [] && ok {
      HandOverCoupled(p, s.q, s.nextSlot, s.pc);
      if HandOver(s.q, s.nextSlot).1 {
        var head := s.q.line.ws[0].id;
        assert Carries(t, head, s.nextSlot);
        assert s.pc[head] == Waiting by { assert LinePc(s.q.line.ws[0], s.pc[head]); }
        forall id: WaiterId, x: Slot | Carries(t, id, x) ensures x in t.live && t.live[x].owner == Some(id) {
          if id != head { assert Carries(s, id, x); }
        }
        forall x | x in t.live && t.live[x].owner.Some? ensures Carries(t, t.live[x].owner.value, x) {
          if x != s.nextSlot { assert t.live[x].owner.value != head; }
        }
      } else {
        assert forall id: WaiterId, x: Slot :: Carries(t, id, x) <==> Carries(s, id, x);
      }
    } else {
      assert forall id: WaiterId, x: Slot :: Carries(t, id, x) <==> Carries(s, id, x);
    }
  }

  /** A waiter stops waiting: what it had, if anything, is now a running request's. */
  lemma LetGoLocated(s: Sys, id: WaiterId, slot: Option<Slot>, t: Sys)
    requires Located(s) && Coupled(s) && id in s.pc
    requires forall x: Slot :: Carries(s, id, x) <==> slot == Some(x)
    requires t.nextSlot == s.nextSlot && t.pc == s.pc[id := Finished]
    requires t.live == if slot.Some? && slot.value in s.live
        then s.live[slot.value := s.live[slot.value].(owner := None)] else s.live
    requires id in t.q.gone ==> t.q.gone[id] == None
    requires forall x :: x != id ==> (x in t.q.gone <==> x in s.q.gone)
                                     && (x in s.q.gone ==> t.q.gone[x] == s.q.gone[x])
    ensures Located(t)
  {
    forall i: WaiterId, x: Slot ensures Carries(t, i, x) <==> i != id && Carries(s, i, x) {}
    forall x | x in t.live && t.live[x].owner.Some? ensures Carries(t, t.live[x].owner.value, x) {
      assert Carries(s, s.live[x].owner.value, x);
    }
  }

  lemma LeaveLocated(p: Params, s: Sys, id: WaiterId)
    requires Base(p, s) && Located(s) && id in s.pc && !s.pc[id].Routed?
    ensures Located(AfterLeave(s, id))
  {
    var k := Pos(s.q.line.ws, id);
    PosHas(s.q.line.ws, id);
    var g := Q.Leave(s.q, id, true).1;
    if k < |s.q.line.ws| { assert ChannelOk(s.q.line.ws[k]); }
    LetGoLocated(s, id, if g.Some? && g.value.Handoff? then Some(g.value.value) else None, AfterLeave(s, id));
  }

  lemma ReadLocated(p: Params, s: Sys, id: WaiterId)
    requires Base(p, s) && Located(s) && At(s, id, Waiting) && Inbox(s.q, id).Some?
    ensures Located(AfterRead(s, id))
  {
    var k := Pos(s.q.line.ws, id);
    var t := AfterRead(s, id);
    if k < |s.q.line.ws| {
      assert ChannelOk(s.q.line.ws[k]);
      SameCarriers(s, t);
    } else {
      var g := s.q.gone[id].value;
      LetGoLocated(s, id, if g.Handoff? then Some(g.value) else None, t);
    }
  }

  lemma DoneLocated(p: Params, s: Sys, id: WaiterId)
    requires Base(p, s) && Located(s) && id in s.pc && s.pc[id].Routed?
    ensures Located(AfterDone(s, id, s.pc[id].s))
  {
    PosHas(s.q.line.ws, id);
    LetGoLocated(s, id, Some(s.pc[id].s), AfterDone(s, id, s.pc[id].s));
  }

  lemma RouteLocated(p: Params, s: Sys, w: Worker)
    requires Base(p, s) && Located(s)
    ensures Located(Take(s, w, None))
  {
    var t := Take(s, w, None);
    forall id: WaiterId, x: Slot ensures Carries(t, id, x) <==> Carries(s, id, x) {}
  }

  lemma RouteOkLocated(p: Params, s: Sys, w: Worker, owner: WaiterId)
    requires Base(p, s) && Located(s) && At(s, owner, Routing)
    ensures Located(Take(s, w, Some(owner)).(pc := s.pc[owner := Routed(s.nextSlot)]))
  {
    var t := Take(s, w, Some(owner)).(pc := s.pc[owner := Routed(s.nextSlot)]);
    assert forall x: Slot :: !Carries(s, owner, x) by { assert GonePcAt(s, owner); }
    forall id: WaiterId, x: Slot ensures Carries(t, id, x) <==> Carries(s, id, x) || (id == owner && x == s.nextSlot) {
      if id == owner { assert !Carries(s, owner, x) && GonePcAt(s, owner); }
    }
    TakenLocated(s, t, w, owner);
  }

  /** What is still in the channel of a waiter that routes is no slot. */
  ghost predicate GonePcAt(s: Sys, id: WaiterId) { id in s.q.gone ==> id in s.pc && GonePc(s.q.gone[id], s.pc[id]) }

  lemma TakenLocated(s: Sys, t: Sys, w: Worker, owner: WaiterId)
    requires Located(s) && t.live == s.live[s.nextSlot := Live(w, Some(owner))] && t.nextSlot == s.nextSlot + 1
    requires forall id: WaiterId, x: Slot :: Carries(t, id, x)
                                             <==> Carries(s, id, x) || (id == owner && x == s.nextSlot)
    ensures Located(t)
  {
  }

  lemma FlushLocated(p: Params, s: Sys)
    requires Base(p, s) && Located(s)
    ensures Located(s.(q := Flush(s.q)))
  {
    var t, ws := s.(q := Flush(s.q)), s.q.line.ws;
    TellTells(ws, s.q.gone);
    forall id: WaiterId, x: Slot ensures Carries(t, id, x) <==> Carries(s, id, x) {
      if Has(ws, id) { var i :| 0 <= i < |ws| && ws[i].id == id; }
    }
    SameCarriers(s, t);
  }

  /** Where slots are is kept by every step. */
  lemma NextLocated(p: Params, cap: map<Worker, int>, s: Sys, l: Label, t: Sys)
    requires Base(p, s) && Located(s) && Next(p, cap, s, l, t)
    ensures Located(t)
  {
    match l
    case ArriveBusy(_, _) => QuietLocated(s, t);
    case EnqueueBusy(room) => JoinLocated(p, s, s.arriving.value, room);
        QuietLocated(Slots.Join(s, p, s.arriving.value, room), t);
    case ArriveRoute(_, w) => RouteLocated(p, s, w);
    case ArriveFull(tenant, _, room) => JoinLocated(p, s, tenant, room);
    case Retry(_, w) => RouteLocated(p, s, w);
    case Release(slot, ok) => if slot in s.live && s.live[slot].owner.None? { GiveLocated(p, s, slot, ok); }
    case Read(id) => ReadLocated(p, s, id);
    case RouteOk(id, _, w) => RouteOkLocated(p, s, w, id);
    case RouteFull(id, _) => MovedLocated(s, t, id, NoSlot);
    case RouteCancelled(id) => MovedLocated(s, t, id, NoSlot);
    case DoneStep(id) => DoneLocated(p, s, id);
    case ParkStep(id) => MovedLocated(s, t, id, t.pc[id]);
    case GiveUp(id) => LeaveLocated(p, s, id);
    case Panic(id) => LeaveLocated(p, s, id);
    case WakeStep(n) => QuietLocated(s, t);
    case FlushStep => FlushLocated(p, s);
    case CloseStep => QuietLocated(s, t);
  }

  // ------------------------------------------------------------------ every slot is counted once

  ghost function OnWorker(live: map<Slot, Live>, w: Worker): set<Slot> {
    set x | x in live && live[x].worker == w
  }

  /** `inflight` counts the unreleased slots of each worker, those in a channel included, within its concurrency. */
  ghost predicate Accounted(cap: map<Worker, int>, s: Sys) {
    && (forall w :: Local(s, w) == |OnWorker(s.live, w)|)
    && (forall w :: w in s.inflight ==> s.inflight[w] > 0)
    && (forall w :: w in cap ==> Local(s, w) <= Max(0, cap[w]))
  }

  lemma OnWorkerPut(live: map<Slot, Live>, x: Slot, l: Live, w: Worker)
    requires x !in live
    ensures |OnWorker(live[x := l], w)| == |OnWorker(live, w)| + if l.worker == w then 1 else 0
  {
    assert OnWorker(live[x := l], w) == if l.worker == w then OnWorker(live, w) + {x} else OnWorker(live, w);
  }

  lemma OnWorkerDrop(live: map<Slot, Live>, x: Slot, w: Worker)
    requires x in live
    ensures |OnWorker(live - {x}, w)| == |OnWorker(live, w)| - if live[x].worker == w then 1 else 0
  {
    assert OnWorker(live - {x}, w) == OnWorker(live, w) - {x};
  }

  lemma OnWorkerOwn(live: map<Slot, Live>, x: Slot, owner: Option<WaiterId>, w: Worker)
    requires x in live
    ensures OnWorker(live[x := live[x].(owner := owner)], w) == OnWorker(live, w)
  {
  }

  lemma QuietAccounted(cap: map<Worker, int>, s: Sys, t: Sys)
    requires Accounted(cap, s) && t.inflight == s.inflight && t.live == s.live
    ensures Accounted(cap, t)
  {
    forall w ensures Local(t, w) == Local(s, w) {}
  }

  lemma OwnAccounted(cap: map<Worker, int>, s: Sys, slot: Slot, t: Sys)
    requires Accounted(cap, s) && t.inflight == s.inflight && t.live == Own(s, slot).live
    ensures Accounted(cap, t)
  {
    forall w ensures Local(t, w) == |OnWorker(t.live, w)| && Local(t, w) == Local(s, w) {
      if slot in s.live { OnWorkerOwn(s.live, slot, None, w); }
    }
  }

  lemma TakeAccounted(cap: map<Worker, int>, s: Sys, v: View, w: Worker, owner: Option<WaiterId>)
    requires Accounted(cap, s) && HasRoom(s, cap, v, w) && s.nextSlot !in s.live
    ensures Accounted(cap, Take(s, w, owner))
  {
    var t := Take(s, w, owner);
    forall u ensures Local(t, u) == |OnWorker(t.live, u)| { OnWorkerPut(s.live, s.nextSlot, Live(w, owner), u); }
  }

  lemma FreeAccounted(cap: map<Worker, int>, s: Sys, slot: Slot)
    requires Accounted(cap, s) && slot in s.live
    ensures Accounted(cap, Free(s, slot))
  {
    var t := Free(s, slot);
    forall u ensures Local(t, u) == |OnWorker(t.live, u)| { OnWorkerDrop(s.live, slot, u); }
  }

  lemma GiveAccounted(cap: map<Worker, int>, s: Sys, slot: Slot, ok: bool)
    requires Accounted(cap, s) && slot in s.live && s.nextSlot !in s.live
    ensures Accounted(cap, Give(s, slot, ok))
  {
    var t := Give(s, slot, ok);
    if s.q.line.ws != [] && ok && HandOver(s.q, s.nextSlot).1 {
      forall u ensures |OnWorker(t.live, u)| == |OnWorker(s.live, u)| && Local(t, u) == Local(s, u) {
        OnWorkerDrop(s.live, slot, u);
        OnWorkerPut(s.live - {slot}, s.nextSlot, t.live[s.nextSlot], u);
      }
    } else {
      var s1 := if s.q.line.ws != [] && ok then s.(q := HandOver(s.q, s.nextSlot).0) else s;
      QuietAccounted(cap, s, s1);
      FreeAccounted(cap, s1, slot);
    }
  }

  lemma NextAccounted(p: Params, cap: map<Worker, int>, s: Sys, l: Label, t: Sys)
    requires Located(s) && Accounted(cap, s) && Next(p, cap, s, l, t)
    ensures Accounted(cap, t)
  {
    match l
    case ArriveRoute(v, w) => TakeAccounted(cap, s, v, w, None);
    case Retry(v, w) => TakeAccounted(cap, s, v, w, None);
    case RouteOk(id, v, w) => TakeAccounted(cap, s, v, w, Some(id)); QuietAccounted(cap, Take(s, w, Some(id)), t);
    case Release(slot, ok) => if slot in s.live && s.live[slot].owner.None? { GiveAccounted(cap, s, slot, ok); }
    case Read(_) => WaiterAccounted(p, cap, s, l, t);
    case DoneStep(_) => WaiterAccounted(p, cap, s, l, t);
    case GiveUp(_) => WaiterAccounted(p, cap, s, l, t);
    case Panic(_) => WaiterAccounted(p, cap, s, l, t);
    case _ => QuietAccounted(cap, s, t);
  }

  lemma ReadAccounted(cap: map<Worker, int>, s: Sys, id: WaiterId)
    requires Accounted(cap, s) && Inbox(s.q, id).Some?
    ensures Accounted(cap, AfterRead(s, id))
  {
    var g := Inbox(s.q, id).value;
    if g.Handoff? {
      OwnAccounted(cap, s, g.value, AfterRead(s, id));
    } else {
      QuietAccounted(cap, s, AfterRead(s, id));
    }
  }

  lemma WaiterAccounted(p: Params, cap: map<Worker, int>, s: Sys, l: Label, t: Sys)
    requires Accounted(cap, s) && Next(p, cap, s, l, t) && (l.Read? || l.DoneStep? || l.GiveUp? || l.Panic?)
    ensures Accounted(cap, t)
  {
    if l.Read? { ReadAccounted(cap, s, l.id); }
    else if l.DoneStep? { OwnAccounted(cap, s, s.pc[l.id].s, t); }
    else { LeaveAccounted(cap, s, l.id); }
  }

  lemma LeaveAccounted(cap: map<Worker, int>, s: Sys, id: WaiterId)
    requires Accounted(cap, s)
    ensures Accounted(cap, AfterLeave(s, id))
  {
    var g := Q.Leave(s.q, id, true).1;
    if g.Some? && g.value.Handoff? {
      OwnAccounted(cap, s, g.value.value, AfterLeave(s, id));
    } else {
      QuietAccounted(cap, s, AfterLeave(s, id));
    }
  }

  // ------------------------------------------------------------------ hand-offs follow arrival order

  ghost predicate Fifo(s: Sys) {
    && Increasing(s.handed)
    && (forall i :: 0 <= i < |s.handed| ==> s.handed[i] < s.q.next)
    && (forall i, j :: 0 <= i < |s.handed| && 0 <= j < |s.q.line.ws| ==> s.handed[i] < s.q.line.ws[j].id)
  }

  lemma FifoHas(s: Sys, t: Sys)
    requires Fifo(s) && t.handed == s.handed && s.q.next <= t.q.next
    requires forall id: WaiterId :: Has(t.q.line.ws, id) ==> Has(s.q.line.ws, id) || id >= s.q.next
    ensures Fifo(t)
  {
    forall i, j | 0 <= i < |t.handed| && 0 <= j < |t.q.line.ws| ensures t.handed[i] < t.q.line.ws[j].id {
      assert Has(t.q.line.ws, t.q.line.ws[j].id);
    }
  }

  lemma JoinFifo(p: Params, s: Sys, tenant: string, room: bool)
    requires Fifo(s)
    ensures Fifo(Slots.Join(s, p, tenant, room))
  {
  }

  lemma LeaveFifo(p: Params, s: Sys, id: WaiterId, giveBack: bool, t: Sys)
    requires Base(p, s) && Fifo(s) && t.handed == s.handed && t.q == Q.Leave(s.q, id, giveBack).0
    ensures Fifo(t)
  {
    var k := Pos(s.q.line.ws, id);
    if k < |s.q.line.ws| { DepartedCoupled(s.q.line, k, giveBack, s.pc, Finished); }
    FifoHas(s, t);
  }

  lemma ReadFifo(s: Sys, id: WaiterId, t: Sys)
    requires Fifo(s) && t.handed == s.handed && (t.q == s.q || t.q == Receive(s.q, id))
    ensures Fifo(t)
  {
  }

  lemma ParkFifo(p: Params, s: Sys, id: WaiterId)
    requires Base(p, s) && Fifo(s) && At(s, id, NoSlot)
    ensures Fifo(AfterPark(s, id))
  {
    var k := Pos(s.q.line.ws, id);
    if k < |s.q.line.ws| { ParkedCoupled(s.q.line, k, s.pc); }
    FifoHas(s, AfterPark(s, id));
  }

  lemma WakeFifo(s: Sys, n: int)
    requires Fifo(s) && Coupled(s)
    ensures Fifo(s.(q := Q.Wake(s.q, n).0))
  {
    if n > 0 { RouseCoupled(s.q.line.ws, n, s.pc); }
    FifoHas(s, s.(q := Q.Wake(s.q, n).0));
  }

  /** A hand-off moves the head of the line to the end of the list of those served. */
  lemma HandedFifo(p: Params, s: Sys, t: Sys)
    requires Base(p, s) && Fifo(s) && s.q.line.ws != [] && t.q.next == s.q.next
        && t.handed == s.handed + [s.q.line.ws[0].id]
    requires t.q.line == Unlink(s.q.line, 0)
    ensures Fifo(t)
  {
    var ws, rest := s.q.line.ws, t.q.line.ws;
    UnlinkKeeps(p, s.q.line, 0);
    assert forall j :: 0 <= j < |rest| ==> rest[j] == ws[j + 1];
    assert forall i :: 0 <= i < |t.handed| ==> t.handed[i] == if i < |s.handed| then s.handed[i] else ws[0].id;
  }

  lemma GiveFifo(p: Params, s: Sys, slot: Slot, ok: bool)
    requires Base(p, s) && Fifo(s) && slot in s.live
    ensures Fifo(Give(s, slot, ok))
  {
    var t := Give(s, slot, ok);
    if s.q.line.ws != [] && ok {
      if HandOver(s.q, s.nextSlot).1 {
        HandedFifo(p, s, t);
      } else {
        HandOverCoupled(p, s.q, s.nextSlot, s.pc);
        FifoHas(s, t);
      }
    }
  }

  lemma WaiterFifo(p: Params, cap: map<Worker, int>, s: Sys, l: Label, t: Sys)
    requires Base(p, s) && Fifo(s) && Next(p, cap, s, l, t)
    requires l.Read? || l.DoneStep? || l.ParkStep? || l.GiveUp? || l.Panic?
    ensures Fifo(t)
  {
    if l.Read? {
      ReadFifo(s, l.id, t);
    } else if l.ParkStep? {
      ParkFifo(p, s, l.id);
    } else {
      LeavingFifo(p, cap, s, l, t);
    }
  }

  lemma LeavingFifo(p: Params, cap: map<Worker, int>, s: Sys, l: Label, t: Sys)
    requires Base(p, s) && Fifo(s) && Next(p, cap, s, l, t) && (l.DoneStep? || l.GiveUp? || l.Panic?)
    ensures Fifo(t)
  {
    LeaveFifo(p, s, l.id, !l.DoneStep?, t);
  }

  lemma NextFifo(p: Params, cap: map<Worker, int>, s: Sys, l: Label, t: Sys)
    requires Base(p, s) && Fifo(s) && Next(p, cap, s, l, t)
    ensures Fifo(t)
  {
    match l
    case EnqueueBusy(room) => JoinFifo(p, s, s.arriving.value, room);
    case ArriveFull(tenant, _, room) => JoinFifo(p, s, tenant, room);
    case Release(slot, ok) => if slot in s.live { GiveFifo(p, s, slot, ok); }
    case WakeStep(n) => WakeFifo(s, n);
    case Read(_) => WaiterFifo(p, cap, s, l, t);
    case DoneStep(_) => WaiterFifo(p, cap, s, l, t);
    case ParkStep(_) => WaiterFifo(p, cap, s, l, t);
    case GiveUp(_) => WaiterFifo(p, cap, s, l, t);
    case Panic(_) => WaiterFifo(p, cap, s, l, t);
    case _ =>
  }

  // ------------------------------------------------------------------ runs

  /** A run: states joined by steps, from the empty gateway. */
  ghost predicate Run(p: Params, cap: map<Worker, int>, states: seq<Sys>, labels: seq<Label>) {
    && |states| == |labels| + 1 && states[0] == Initial
    && forall i :: 0 <= i < |labels| ==> Next(p, cap, states[i], labels[i], states[i + 1])
  }

  /** Nobody joins a closed queue. */
  lemma NextClosed(p: Params, cap: map<Worker, int>, s: Sys, l: Label, t: Sys)
    requires s.q.closed && Next(p, cap, s, l, t)
    ensures t.q.closed && t.q.next == s.q.next
  {
    if l.Read? || l.DoneStep? || l.ParkStep? || l.GiveUp? || l.Panic? { WaiterKeepsClosed(p, cap, s, l, t); }
  }

  lemma WaiterKeepsClosed(p: Params, cap: map<Worker, int>, s: Sys, l: Label, t: Sys)
    requires s.q.closed && Next(p, cap, s, l, t) && (l.Read? || l.DoneStep? || l.ParkStep? || l.GiveUp? || l.Panic?)
    ensures t.q.closed && t.q.next == s.q.next
  {
  }

  /** In every run, once the queue is closed no waiter is ever accepted again. */
  lemma {:induction false} NobodyJoinsAfterClose(p: Params, cap: map<Worker, int>, states: seq<Sys>, labels: seq<Label>,
      i: nat, j: nat)
    requires Run(p, cap, states, labels) && i <= j < |states| && states[i].q.closed
    ensures states[j].q.closed && states[j].q.next == states[i].q.next
    decreases j
  {
    if i < j {
      NobodyJoinsAfterClose(p, cap, states, labels, i, j - 1);
      NextClosed(p, cap, states[j - 1], labels[j - 1], states[j]);
    }
  }

  ghost predicate Safe(p: Params, cap: map<Worker, int>, s: Sys) {
    Base(p, s) && Located(s) && Accounted(cap, s) && Fifo(s)
  }

  /** Every state of every run is safe, whatever registry views, breakers, clients, refreshes and flushes do. */
  lemma {:induction false} RunsAreSafe(p: Params, cap: map<Worker, int>, states: seq<Sys>, labels: seq<Label>, i: nat)
    requires Run(p, cap, states, labels) && i < |states|
    ensures Safe(p, cap, states[i])
  {
    if i == 0 {
      forall w ensures OnWorker(Initial.live, w) == {} {}
    } else {
      RunsAreSafe(p, cap, states, labels, i - 1);
      NextBase(p, cap, states[i - 1], labels[i - 1], states[i]);
      NextLocated(p, cap, states[i - 1], labels[i - 1], states[i]);
      NextAccounted(p, cap, states[i - 1], labels[i - 1], states[i]);
      NextFifo(p, cap, states[i - 1], labels[i - 1], states[i]);
    }
  }
}
