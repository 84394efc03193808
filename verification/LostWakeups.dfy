/** No lost wake-up: while the registry view is steady, free slots never outnumber the routings still owed to them.
    The property is proved to hold in exactly those runs that avoid two events, each shown by a concrete run. */
module LostWakeups {
  import opened Prelude
  import opened AdmissionQueue
  import opened Slots
  import opened SlotsSafety

  /** The waiter has been told to route and has not looked yet. */
  predicate Owes(w: Waiter, pc: map<WaiterId, Pc>) {
    w.woken && (w.ch == Some(Reroute) || (w.id in pc && pc[w.id] == Routing))
  }

  function Owing(ws: seq<Waiter>, pc: map<WaiterId, Pc>): nat {
    if ws == [] then 0 else (if Owes(ws[0], pc) then 1 else 0) + Owing(ws[1..], pc)
  }

  function Room(cap: map<Worker, int>, s: Sys, w: Worker): nat {
    if w in cap then Max(0, cap[w] - Local(s, w)) else 0
  }

  /** The slots a routing could take on the eligible workers. */
  function FreeSlots(elig: seq<Worker>, cap: map<Worker, int>, s: Sys): nat {
    if elig == [] then 0 else Room(cap, s, elig[0]) + FreeSlots(elig[1..], cap, s)
  }

  ghost predicate Distinct(elig: seq<Worker>) { forall i, j :: 0 <= i < j < |elig| ==> elig[i] != elig[j] }

  /** A fixed eligible set, breakers that admit it, and reports not above the gateway's own counts. */
  ghost predicate SteadyView(elig: seq<Worker>, s: Sys, v: View) {
    && (forall w :: w in v.offered <==> w in elig)
    && (forall w :: w in elig ==> Reported(v, w) <= Local(s, w))
  }

  ghost predicate Steady(elig: seq<Worker>, s: Sys, l: Label) {
    match l
    case ArriveBusy(_, v) => SteadyView(elig, s, v)
    case ArriveRoute(v, _) => SteadyView(elig, s, v)
    case ArriveFull(_, v, _) => SteadyView(elig, s, v)
    case Retry(v, _) => SteadyView(elig, s, v)
    case RouteOk(_, v, _) => SteadyView(elig, s, v)
    case RouteFull(_, v) => SteadyView(elig, s, v)
    case Release(slot, ok) => slot in s.live ==> (ok <==> s.live[slot].worker in elig)
    case _ => true
  }

  /** While anyone waits, every free slot has a waiter that still owes a routing, or a unit of credit, to it. */
  ghost predicate Covered(elig: seq<Worker>, cap: map<Worker, int>, s: Sys) {
    s.q.line.ws != [] ==> FreeSlots(elig, cap, s) <= Owing(s.q.line.ws, s.pc) + s.q.line.credit
  }

  /** The two steps that lose a wake-up: a waiter whose client left gives up its routing without looking, when every
      wake-up was needed; and an arrival that saw waiters enqueues after the last of them left, with a slot free. */
  ghost predicate Loses(p: Params, elig: seq<Worker>, cap: map<Worker, int>, s: Sys, l: Label) {
    match l
    case RouteCancelled(id) => Has(s.q.line.ws, id) && FreeSlots(elig, cap, s) >= Owing(s.q.line.ws, s.pc)
        + s.q.line.credit
    case EnqueueBusy(room) =>
      s.arriving.Some? && s.q.line.ws == [] && FreeSlots(elig, cap, s) > 0
          && Refusal(p, s.q, s.arriving.value, room).None?
    case _ => false
  }

  // ------------------------------------------------------------------ counting owed routings

  lemma {:induction false} OwingAppend(a: seq<Waiter>, b: seq<Waiter>, pc: map<WaiterId, Pc>)
    ensures Owing(a + b, pc) == Owing(a, pc) + Owing(b, pc)
  {
    if a == [] { assert a + b == b; } else { assert (a + b)[1..] == a[1..] + b; OwingAppend(a[1..], b, pc); }
  }

  lemma OwingAt(ws: seq<Waiter>, k: nat, pc: map<WaiterId, Pc>)
    requires k < |ws|
    ensures Owing(ws, pc) == Owing(ws[..k], pc) + (if Owes(ws[k], pc) then 1 else 0) + Owing(ws[k + 1..], pc)
  {
    assert ws == ws[..k] + ([ws[k]] + ws[k + 1..]);
    OwingAppend(ws[..k], [ws[k]] + ws[k + 1..], pc);
    OwingAppend([ws[k]], ws[k + 1..], pc);
  }

  lemma {:induction false} OwingSame(ws: seq<Waiter>, pc: map<WaiterId, Pc>, pc': map<WaiterId, Pc>)
    requires forall i :: 0 <= i < |ws| ==> Owes(ws[i], pc) == Owes(ws[i], pc')
    ensures Owing(ws, pc) == Owing(ws, pc')
  {
    if ws != [] { OwingSame(ws[1..], pc, pc'); }
  }

  /** Changing one waiter, and what its goroutine does, changes the count by that waiter only. */
  lemma OwingPut(ws: seq<Waiter>, k: nat, w: Waiter, pc: map<WaiterId, Pc>, x: Pc)
    requires InOrder(ws) && k < |ws| && w.id == ws[k].id
    ensures Owing(ws[k := w], pc[w.id := x]) == Owing(ws, pc) - (if Owes(ws[k], pc) then 1 else 0)
        + if Owes(w, pc[w.id := x]) then 1 else 0
  {
    OwingAt(ws, k, pc);
    OwingAt(ws[k := w], k, pc[w.id := x]);
    assert ws[k := w][..k] == ws[..k] && ws[k := w][k + 1..] == ws[k + 1..];
    OwingSame(ws[..k], pc, pc[w.id := x]);
    OwingSame(ws[k + 1..], pc, pc[w.id := x]);
  }

  lemma OwingOut(line: Line, k: nat, pc: map<WaiterId, Pc>, x: Pc)
    requires InOrder(line.ws) && k < |line.ws|
    ensures Owing(Unlink(line, k).ws, pc[line.ws[k].id := x]) == Owing(line.ws, pc) - if Owes(line.ws[k], pc) then 1
        else 0
  {
    var ws := line.ws;
    OwingAt(ws, k, pc);
    OwingAppend(ws[..k], ws[k + 1..], pc[ws[k].id := x]);
    OwingSame(ws[..k], pc, pc[ws[k].id := x]);
    OwingSame(ws[k + 1..], pc, pc[ws[k].id := x]);
    if |ws| == 1 { assert ws[..k] == [] && ws[k + 1..] == []; }
  }

  lemma OwingElsewhere(ws: seq<Waiter>, pc: map<WaiterId, Pc>, id: WaiterId, x: Pc)
    requires !Has(ws, id)
    ensures Owing(ws, pc[id := x]) == Owing(ws, pc)
  {
    OwingSame(ws, pc, pc[id := x]);
  }

  /** Telling waiters to route turns units into owed routings, one for one. */
  lemma {:induction false} RouseOwing(ws: seq<Waiter>, n: nat, self: Option<WaiterId>, pc: map<WaiterId, Pc>)
    requires self.Some? ==> self.value in pc && pc[self.value] == Routing
    ensures Owing(Rouse(ws, n, self).0, pc) + Rouse(ws, n, self).1 == Owing(ws, pc) + n
  {
    if ws != [] && n > 0 {
      RouseOwing(ws[1..], if ws[0].woken then n else n - 1, self, pc);
      var r := Rouse(ws, n, self).0;
      assert r[1..] == Rouse(ws[1..], if ws[0].woken then n else n - 1, self).0;
    }
  }

  lemma SettleOwing(line: Line, pc: map<WaiterId, Pc>)
    ensures Owing(Settle(line, None).ws, pc) + Settle(line, None).credit == Owing(line.ws, pc) + line.credit
  {
    RouseOwing(line.ws, line.credit, None, pc);
  }

  // ------------------------------------------------------------------ counting free slots

  lemma {:induction false} FreeElsewhere(elig: seq<Worker>, cap: map<Worker, int>, s: Sys, t: Sys)
    requires forall w :: w in elig ==> Room(cap, s, w) == Room(cap, t, w)
    ensures FreeSlots(elig, cap, s) == FreeSlots(elig, cap, t)
  {
    if elig != [] { FreeElsewhere(elig[1..], cap, s, t); }
  }

  lemma {:induction false} FreeChange(elig: seq<Worker>, cap: map<Worker, int>, s: Sys, t: Sys, w: Worker)
    requires Distinct(elig) && w in elig && forall u :: u in elig && u != w ==> Room(cap, s, u) == Room(cap, t, u)
    ensures FreeSlots(elig, cap, t) - Room(cap, t, w) == FreeSlots(elig, cap, s) - Room(cap, s, w)
  {
    if elig[0] == w {
      FreeElsewhere(elig[1..], cap, s, t);
    } else {
      FreeChange(elig[1..], cap, s, t, w);
    }
  }

  lemma TakeFree(elig: seq<Worker>, cap: map<Worker, int>, s: Sys, v: View, w: Worker, t: Sys)
    requires Distinct(elig) && SteadyView(elig, s, v) && HasRoom(s, cap, v, w)
        && t.inflight == s.inflight[w := Local(s, w) + 1]
    ensures FreeSlots(elig, cap, t) == FreeSlots(elig, cap, s) - 1
  {
    FreeChange(elig, cap, s, t, w);
  }

  lemma FullFree(elig: seq<Worker>, cap: map<Worker, int>, s: Sys, v: View)
    requires SteadyView(elig, s, v) && AllFull(s, cap, v)
    ensures FreeSlots(elig, cap, s) == 0
  {
    NoRoomNoSlots(elig, cap, s);
  }

  lemma {:induction false} NoRoomNoSlots(elig: seq<Worker>, cap: map<Worker, int>, s: Sys)
    requires forall w :: w in elig ==> Room(cap, s, w) == 0
    ensures FreeSlots(elig, cap, s) == 0
  {
    if elig != [] { NoRoomNoSlots(elig[1..], cap, s); }
  }

  lemma FreeFree(elig: seq<Worker>, cap: map<Worker, int>, s: Sys, slot: Slot)
    requires Distinct(elig) && Accounted(cap, s) && slot in s.live
    ensures FreeSlots(elig, cap, Free(s, slot)) <= FreeSlots(elig, cap, s) + if s.live[slot].worker in elig then 1
        else 0
  {
    var w, t := s.live[slot].worker, Free(s, slot);
    if w in elig { FreeChange(elig, cap, s, t, w); } else { FreeElsewhere(elig, cap, s, t); }
  }

  lemma SameFree(elig: seq<Worker>, cap: map<Worker, int>, s: Sys, t: Sys)
    requires t.inflight == s.inflight
    ensures FreeSlots(elig, cap, t) == FreeSlots(elig, cap, s)
  {
    FreeElsewhere(elig, cap, s, t);
  }

  // ------------------------------------------------------------------ what each step does to the cover

  /** The routings owed plus the credit banked. */
  function Cover(s: Sys): nat { Owing(s.q.line.ws, s.pc) + s.q.line.credit }

  lemma JoinCover(p: Params, s: Sys, tenant: string, room: bool, t: Sys)
    requires Base(p, s) && Refusal(p, s.q, tenant, room).None? && t.q == Append(s.q, tenant)
        && t.pc == s.pc[s.q.next := Waiting]
    ensures Cover(t) == Cover(s)
  {
    var ws := s.q.line.ws;
    assert !Has(ws, s.q.next);
    OwingElsewhere(ws, s.pc, s.q.next, Waiting);
    var w := Waiter(s.q.next, tenant, false, None);
    OwingAppend(ws, [w], t.pc);
    assert Owing([w], t.pc) == 0;
  }

  lemma ReadCover(p: Params, s: Sys, id: WaiterId)
    requires Base(p, s) && At(s, id, Waiting) && Inbox(s.q, id).Some?
    ensures Cover(AfterRead(s, id)) == Cover(s)
  {
    var k, ws := Pos(s.q.line.ws, id), s.q.line.ws;
    if k < |ws| {
      assert ChannelOk(ws[k]) && ws[k].woken;
      OwingPut(ws, k, ws[k].(ch := None), s.pc, Routing);
    } else {
      PosHas(ws, id);
      OwingElsewhere(ws, s.pc, id, Finished);
    }
  }

  /** Leaving gives back what was owed: the cover never falls while somebody stays. */
  lemma LeaveCover(p: Params, s: Sys, id: WaiterId, giveBack: bool, t: Sys)
    requires Base(p, s) && id in s.pc && (giveBack || s.pc[id].Routed?)
    requires t.q == Q.Leave(s.q, id, giveBack).0 && t.pc == s.pc[id := Finished]
    ensures t.q.line.ws != [] ==> Cover(t) >= Cover(s)
  {
    var k, ws := Pos(s.q.line.ws, id), s.q.line.ws;
    if k < |ws| {
      var rest := Unlink(s.q.line, k);
      OwingOut(s.q.line, k, s.pc, Finished);
      SettleOwing(if giveBack && ws[k].woken && rest.ws != [] then Bank(rest) else rest, t.pc);
      assert LinePc(ws[k], s.pc[id]);
      if rest.ws == [] { RouseLeft(rest.ws, rest.credit, None); }
    } else {
      PosHas(ws, id);
      OwingElsewhere(ws, s.pc, id, Finished);
    }
  }

  lemma ParkedOwing(line: Line, k: nat, pc: map<WaiterId, Pc>)
    requires InOrder(line.ws) && k < |line.ws| && !Owes(line.ws[k], pc)
    requires line.ws[k].ch == None
    ensures var after, id := Parked(line, k), line.ws[k].id;
            Owing(after.ws, pc[id := if after.ws[k].woken then Routing else Waiting]) + after.credit
                == Owing(line.ws, pc) + line.credit
  {
    var ws, id, after := line.ws, line.ws[k].id, Parked(line, k);
    var idle := ws[k := ws[k].(woken := false)];
    OwingPut(ws, k, ws[k].(woken := false), pc, Routing);
    RouseOwing(idle, line.credit, Some(id), pc[id := Routing]);
    RouseRouses(idle, line.credit, Some(id));
    assert forall i :: 0 <= i < |ws| ==> after.ws[i].id == ws[i].id;
    if !after.ws[k].woken { SleepersOweNothing(after.ws, k, pc, Routing, Waiting); }
  }

  lemma SleepersOweNothing(ws: seq<Waiter>, k: nat, pc: map<WaiterId, Pc>, x: Pc, y: Pc)
    requires InOrder(ws) && k < |ws| && !ws[k].woken
    ensures Owing(ws, pc[ws[k].id := x]) == Owing(ws, pc[ws[k].id := y])
  {
    OwingSame(ws, pc[ws[k].id := x], pc[ws[k].id := y]);
  }

  lemma ParkCover(p: Params, s: Sys, id: WaiterId)
    requires Base(p, s) && At(s, id, NoSlot)
    ensures Cover(AfterPark(s, id)) == Cover(s)
  {
    var k, ws := Pos(s.q.line.ws, id), s.q.line.ws;
    if k < |ws| {
      assert LinePc(ws[k], s.pc[id]) && ChannelOk(ws[k]);
      ParkedOwing(s.q.line, k, s.pc);
    } else {
      PosHas(ws, id);
      OwingElsewhere(ws, s.pc, id, Waiting);
    }
  }

  lemma RoutedCover(p: Params, s: Sys, id: WaiterId, x: Pc, t: Sys)
    requires Base(p, s) && At(s, id, Routing) && (x.Routed? || x == NoSlot) && t.q == s.q && t.pc == s.pc[id := x]
    ensures Cover(t) == Cover(s) - if Has(s.q.line.ws, id) then 1 else 0
    ensures Has(s.q.line.ws, id) ==> Cover(s) > 0
  {
    var k, ws := Pos(s.q.line.ws, id), s.q.line.ws;
    PosHas(ws, id);
    if k < |ws| {
      assert LinePc(ws[k], s.pc[id]);
      OwingPut(ws, k, ws[k], s.pc, x);
      assert ws[k := ws[k]] == ws;
    } else {
      OwingElsewhere(ws, s.pc, id, x);
    }
  }

  lemma HandOverCover(p: Params, s: Sys, value: Value, t: Sys)
    requires Base(p, s) && s.q.line.ws != [] && t.q == HandOver(s.q, value).0 && t.pc == s.pc
    ensures HandOver(s.q, value).1 && t.q.line.ws != [] ==> Cover(t) == Cover(s)
    ensures !HandOver(s.q, value).1 ==> Cover(t) == Cover(s) + 1
  {
    var ws := s.q.line.ws;
    if ws[0].woken {
      SettleOwing(Bank(s.q.line), s.pc);
    } else {
      OwingOut(s.q.line, 0, s.pc, s.pc[ws[0].id]);
      assert s.pc[ws[0].id := s.pc[ws[0].id]] == s.pc;
    }
  }

  lemma GiveCovered(p: Params, elig: seq<Worker>, cap: map<Worker, int>, s: Sys, slot: Slot, ok: bool)
    requires Base(p, s) && Accounted(cap, s) && Covered(elig, cap, s) && Distinct(elig)
    requires slot in s.live && (ok <==> s.live[slot].worker in elig)
    ensures Covered(elig, cap, Give(s, slot, ok))
  {
    var t := Give(s, slot, ok);
    if s.q.line.ws != [] && ok {
      HandOverCover(p, s, s.nextSlot, s.(q := HandOver(s.q, s.nextSlot).0));
      if HandOver(s.q, s.nextSlot).1 {
        SameFree(elig, cap, s, t);
      } else {
        var s1 := s.(q := HandOver(s.q, s.nextSlot).0);
        SameFree(elig, cap, s, s1);
        QuietAccounted(cap, s, s1);
        FreeFree(elig, cap, s1, slot);
      }
    } else {
      FreeFree(elig, cap, s, slot);
    }
  }

  lemma RoutingCovered(p: Params, elig: seq<Worker>, cap: map<Worker, int>, s: Sys, l: Label, t: Sys)
    requires Base(p, s) && Covered(elig, cap, s) && Distinct(elig) && Next(p, cap, s, l, t) && Steady(elig, s, l)
    requires l.RouteOk? || l.RouteFull? || l.RouteCancelled?
    ensures Covered(elig, cap, t) <==> !Loses(p, elig, cap, s, l)
  {
    match l
    case RouteOk(id, v, w) => RoutedCover(p, s, id, Routed(s.nextSlot), t); TakeFree(elig, cap, s, v, w, t);
    case RouteFull(id, v) => FullFree(elig, cap, s, v); SameFree(elig, cap, s, t);
    case RouteCancelled(id) => RoutedCover(p, s, id, NoSlot, t); SameFree(elig, cap, s, t);
  }

  /** Somebody leaves: those who stay are covered as before. */
  lemma LeaveCovered(p: Params, elig: seq<Worker>, cap: map<Worker, int>, s: Sys, id: WaiterId, giveBack: bool, t: Sys)
    requires Base(p, s) && Covered(elig, cap, s) && id in s.pc && (giveBack || s.pc[id].Routed?)
    requires t.q == Q.Leave(s.q, id, giveBack).0 && t.pc == s.pc[id := Finished] && t.inflight == s.inflight
    ensures Covered(elig, cap, t)
  {
    LeaveCover(p, s, id, giveBack, t);
    SameFree(elig, cap, s, t);
  }

  lemma ReadOrParkCovered(p: Params, elig: seq<Worker>, cap: map<Worker, int>, s: Sys, l: Label, t: Sys)
    requires Base(p, s) && Covered(elig, cap, s) && Next(p, cap, s, l, t) && (l.Read? || l.ParkStep?)
    ensures Covered(elig, cap, t)
  {
    if l.Read? { ReadCovered(p, elig, cap, s, l.id); } else { ParkCovered(p, elig, cap, s, l.id); }
  }

  lemma ReadCovered(p: Params, elig: seq<Worker>, cap: map<Worker, int>, s: Sys, id: WaiterId)
    requires Base(p, s) && Covered(elig, cap, s) && At(s, id, Waiting) && Inbox(s.q, id).Some?
    ensures Covered(elig, cap, AfterRead(s, id))
  {
    ReadCover(p, s, id);
    SameFree(elig, cap, s, AfterRead(s, id));
  }

  lemma ParkCovered(p: Params, elig: seq<Worker>, cap: map<Worker, int>, s: Sys, id: WaiterId)
    requires Base(p, s) && Covered(elig, cap, s) && At(s, id, NoSlot)
    ensures Covered(elig, cap, AfterPark(s, id))
  {
    ParkCover(p, s, id);
    SameFree(elig, cap, s, AfterPark(s, id));
  }

  lemma WaiterCovered(p: Params, elig: seq<Worker>, cap: map<Worker, int>, s: Sys, l: Label, t: Sys)
    requires Base(p, s) && Covered(elig, cap, s) && Next(p, cap, s, l, t)
    requires l.Read? || l.DoneStep? || l.ParkStep? || l.GiveUp? || l.Panic?
    ensures Covered(elig, cap, t)
  {
    match l
    case Read(id) => ReadOrParkCovered(p, elig, cap, s, l, t);
    case DoneStep(id) => LeaveCovered(p, elig, cap, s, id, false, t);
    case ParkStep(id) => ReadOrParkCovered(p, elig, cap, s, l, t);
    case GiveUp(id) => LeaveCovered(p, elig, cap, s, id, true, t);
    case Panic(id) => LeaveCovered(p, elig, cap, s, id, true, t);
  }

  lemma JoinCovered(p: Params, elig: seq<Worker>, cap: map<Worker, int>, s: Sys, tenant: string, room: bool, t: Sys)
    requires Base(p, s) && Covered(elig, cap, s)
    requires t.q == Slots.Join(s, p, tenant, room).q && t.pc == Slots.Join(s, p, tenant, room).pc
        && t.inflight == s.inflight
    ensures Covered(elig, cap, t)
        <==> !(s.q.line.ws == [] && FreeSlots(elig, cap, s) > 0 && Refusal(p, s.q, tenant, room).None?)
  {
    SameFree(elig, cap, s, t);
    if Refusal(p, s.q, tenant, room).None? { JoinCover(p, s, tenant, room, t); }
  }

  lemma WakeCovered(elig: seq<Worker>, cap: map<Worker, int>, s: Sys, n: int, t: Sys)
    requires Covered(elig, cap, s) && t == s.(q := Q.Wake(s.q, n).0)
    ensures Covered(elig, cap, t)
  {
    SameFree(elig, cap, s, t);
    if n > 0 { RouseOwing(s.q.line.ws, n, None, s.pc); RouseLeft(s.q.line.ws, n, None); }
  }

  lemma ArrivalCovered(p: Params, elig: seq<Worker>, cap: map<Worker, int>, s: Sys, l: Label, t: Sys)
    requires Base(p, s) && Covered(elig, cap, s) && Distinct(elig) && Next(p, cap, s, l, t) && Steady(elig, s, l)
    requires l.ArriveBusy? || l.EnqueueBusy? || l.ArriveRoute? || l.ArriveFull?
    ensures Covered(elig, cap, t) <==> !Loses(p, elig, cap, s, l)
  {
    if l.ArriveBusy? { SameFree(elig, cap, s, t); }
    else if l.EnqueueBusy? { JoinCovered(p, elig, cap, s, s.arriving.value, l.room, t); }
    else if l.ArriveFull? { FullFree(elig, cap, s, l.view); JoinCovered(p, elig, cap, s, l.tenant, l.room, t); }
  }

  /** One steady step keeps the cover if and only if it is not one of the two losing events. */
  lemma NextCovered(p: Params, elig: seq<Worker>, cap: map<Worker, int>, s: Sys, l: Label, t: Sys)
    requires Base(p, s) && Accounted(cap, s) && Covered(elig, cap, s) && Distinct(elig)
    requires Next(p, cap, s, l, t) && Steady(elig, s, l)
    ensures Covered(elig, cap, t) <==> !Loses(p, elig, cap, s, l)
  {
    match l
    case ArriveBusy(_, _) => ArrivalCovered(p, elig, cap, s, l, t);
    case EnqueueBusy(_) => ArrivalCovered(p, elig, cap, s, l, t);
    case ArriveRoute(_, _) => ArrivalCovered(p, elig, cap, s, l, t);
    case ArriveFull(_, _, _) => ArrivalCovered(p, elig, cap, s, l, t);
    case Retry(v, w) => TakeFree(elig, cap, s, v, w, t);
    case Release(slot, ok) => if slot in s.live && s.live[slot].owner.None? { GiveCovered(p, elig, cap, s, slot, ok); }
    case WakeStep(n) => WakeCovered(elig, cap, s, n, t);
    case FlushStep =>
    case CloseStep => SameFree(elig, cap, s, t);
    case RouteOk(_, _, _) => RoutingCovered(p, elig, cap, s, l, t);
    case RouteFull(_, _) => RoutingCovered(p, elig, cap, s, l, t);
    case RouteCancelled(_) => RoutingCovered(p, elig, cap, s, l, t);
    case _ => WaiterCovered(p, elig, cap, s, l, t);
  }

  // ------------------------------------------------------------------ the theorem

  ghost predicate SteadyRun(p: Params, elig: seq<Worker>, cap: map<Worker, int>, states: seq<Sys>, labels: seq<Label>) {
    && Run(p, cap, states, labels) && Distinct(elig)
    && forall i :: 0 <= i < |labels| ==> Steady(elig, states[i], labels[i])
  }

  lemma {:induction false} CoveredWhileNothingIsLost(p: Params, elig: seq<Worker>, cap: map<Worker, int>,
      states: seq<Sys>, labels: seq<Label>, i: nat)
    requires SteadyRun(p, elig, cap, states, labels) && i < |states|
    requires forall k :: 0 <= k < i ==> !Loses(p, elig, cap, states[k], labels[k])
    ensures Covered(elig, cap, states[i])
  {
    if i > 0 {
      CoveredWhileNothingIsLost(p, elig, cap, states, labels, i - 1);
      RunsAreSafe(p, cap, states, labels, i - 1);
      NextCovered(p, elig, cap, states[i - 1], labels[i - 1], states[i]);
    }
  }

  /** In a steady run every state covers its free slots if and only if neither losing event happens. */
  lemma NoLostWakeup(p: Params, elig: seq<Worker>, cap: map<Worker, int>, states: seq<Sys>, labels: seq<Label>)
    requires SteadyRun(p, elig, cap, states, labels)
    ensures (forall i :: 0 <= i < |states| ==> Covered(elig, cap, states[i]))
       <==> (forall i :: 0 <= i < |labels| ==> !Loses(p, elig, cap, states[i], labels[i]))
  {
    if forall i :: 0 <= i < |labels| ==> !Loses(p, elig, cap, states[i], labels[i]) {
      forall i | 0 <= i < |states| ensures Covered(elig, cap, states[i]) {
        CoveredWhileNothingIsLost(p, elig, cap, states, labels, i);
      }
    } else {
      var i :| 0 <= i < |labels| && Loses(p, elig, cap, states[i], labels[i]);
      RunsAreSafe(p, cap, states, labels, i);
      if Covered(elig, cap, states[i]) { NextCovered(p, elig, cap, states[i], labels[i], states[i + 1]); }
      assert !Covered(elig, cap, states[i]) || !Covered(elig, cap, states[i + 1]);
    }
  }

  ghost predicate AllAsleep(ws: seq<Waiter>) { forall i :: 0 <= i < |ws| ==> !ws[i].woken }

  lemma {:induction false} AsleepOweNothing(ws: seq<Waiter>, pc: map<WaiterId, Pc>)
    requires AllAsleep(ws)
    ensures Owing(ws, pc) == 0
  {
    if ws != [] { AsleepOweNothing(ws[1..], pc); }
  }

  /** No slot is free while everybody who waits sleeps. */
  lemma NobodySleepsBesideAFreeSlot(p: Params, elig: seq<Worker>, cap: map<Worker, int>, states: seq<Sys>,
      labels: seq<Label>, i: nat)
    requires SteadyRun(p, elig, cap, states, labels) && i < |states|
    requires forall k :: 0 <= k < i ==> !Loses(p, elig, cap, states[k], labels[k])
    requires states[i].q.line.ws != [] && AllAsleep(states[i].q.line.ws)
    ensures FreeSlots(elig, cap, states[i]) == 0
  {
    CoveredWhileNothingIsLost(p, elig, cap, states, labels, i);
    RunsAreSafe(p, cap, states, labels, i);
    AsleepOweNothing(states[i].q.line.ws, states[i].pc);
  }
}
