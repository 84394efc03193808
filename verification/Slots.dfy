/** The admission queue composed with the router's slot accounting (internal/gateway/router.go,
    internal/gateway/resilience_queue.go), for the requests, workers and waiters of one model.

    A step is one section under the queue's mutex; `arriving` stands for the router's mutex where a section of it
    spans two queue calls (the busy check and the Enqueue that follows). Registry views, breakers, clocks and clients
    are inputs of the steps. */
module Slots {
  import opened Prelude
  import Q = AdmissionQueue
  import opened AdmissionQueue

  type Worker = string
  type Slot = nat

  /** What a goroutine of awaitSlot is doing. */
  datatype Pc =
    | Waiting          // in Wait
    | Routing          // has read a Reroute and is about to route
    | Routed(s: Slot)  // its routing took a slot, Done comes next
    | NoSlot           // its routing found nothing, Park comes next
    | Finished

  /** A slot that has not been released: its worker, and the waiter it travels to, if any. */
  datatype Live = Live(worker: Worker, owner: Option<WaiterId>)

  datatype Sys = Sys(q: State, pc: map<WaiterId, Pc>, inflight: map<Worker, nat>, live: map<Slot, Live>, nextSlot: Slot,
                     arriving: Option<string>, handed: seq<WaiterId>)

  /** A registry view as one routing sees it: the schedulable workers the breakers admit, and the reported load. */
  datatype View = View(offered: set<Worker>, reported: map<Worker, int>)

  datatype Label =
    | ArriveBusy(tenant: string, view: View)
    | EnqueueBusy(room: bool)
    | ArriveRoute(view: View, w: Worker)
    | ArriveFull(tenant: string, view: View, room: bool)
    | Retry(view: View, w: Worker)
    | Release(slot: Slot, ok: bool)
    | Read(id: WaiterId)
    | RouteOk(id: WaiterId, view: View, w: Worker)
    | RouteFull(id: WaiterId, view: View)
    | RouteCancelled(id: WaiterId)
    | DoneStep(id: WaiterId)
    | ParkStep(id: WaiterId)
    | GiveUp(id: WaiterId)
    | Panic(id: WaiterId)
    | WakeStep(n: int)
    | FlushStep
    | CloseStep

  function Local(s: Sys, w: Worker): nat { if w in s.inflight then s.inflight[w] else 0 }

  function Reported(v: View, w: Worker): int { if w in v.reported then v.reported[w] else 0 }

  /** The overlay: the larger of what the worker reported and what this gateway has in flight. */
  function Overlay(s: Sys, v: View, w: Worker): int { Max(Reported(v, w), Local(s, w)) }

  predicate HasRoom(s: Sys, cap: map<Worker, int>, v: View, w: Worker) {
    w in v.offered && w in cap && Overlay(s, v, w) < cap[w]
  }

  predicate AllFull(s: Sys, cap: map<Worker, int>, v: View) {
    forall w :: w in v.offered ==> w !in cap || Overlay(s, v, w) >= cap[w]
  }

  /** reserve: the chosen worker's count goes up and a fresh slot exists. */
  function Take(s: Sys, w: Worker, owner: Option<WaiterId>): Sys {
    s.(inflight := s.inflight[w := Local(s, w) + 1], live := s.live[s.nextSlot := Live(w, owner)],
        nextSlot := s.nextSlot + 1)
  }

  /** releaseSlot without a hand-off. */
  function Free(s: Sys, slot: Slot): Sys
    requires slot in s.live
  {
    var w := s.live[slot].worker;
    s.(inflight := if Local(s, w) <= 1 then s.inflight - {w}
        else s.inflight[w := s.inflight[w] - 1], live := s.live - {slot})
  }

  /** releaseSlot: the slot goes to the head waiter if the worker may still serve, else it is freed. A handed-off slot
      is a new token for the same worker. */
  function Give(s: Sys, slot: Slot, ok: bool): Sys
    requires slot in s.live
  {
    if s.q.line.ws == [] || !ok then Free(s, slot)
    else
      var r := HandOver(s.q, s.nextSlot);
      if r.1 then
        var head := s.q.line.ws[0].id;
        s.(q := r.0, live := (s.live - {slot})[s.nextSlot := Live(s.live[slot].worker, Some(head))],
            nextSlot := s.nextSlot + 1,
           handed := s.handed + [head])
      else Free(s.(q := r.0), slot)
  }

  function Join(s: Sys, p: Params, tenant: string, room: bool): Sys {
    if Refusal(p, s.q, tenant, room).Some? then s
    else s.(q := Append(s.q, tenant), pc := s.pc[s.q.next := Waiting])
  }

  /** The waiter now runs with the slot it received. */
  function Own(s: Sys, slot: Slot): Sys {
    if slot in s.live then s.(live := s.live[slot := s.live[slot].(owner := None)]) else s
  }

  function Finish(s: Sys, id: WaiterId): Sys { s.(pc := s.pc[id := Finished]) }

  function Inbox(q: State, id: WaiterId): Option<Grant> {
    var k := Pos(q.line.ws, id);
    if k < |q.line.ws| then q.line.ws[k].ch else if id in q.gone then q.gone[id] else None
  }

  function AfterRead(s: Sys, id: WaiterId): Sys {
    var s1 := s.(q := Receive(s.q, id));
    match Inbox(s.q, id)
    case None => s
    case Some(Handoff(v)) => Finish(Own(s1, v), id)
    case Some(Reroute) => s1.(pc := s.pc[id := Routing])
    case Some(Flushed) => Finish(s1, id)
  }

  function AfterLeave(s: Sys, id: WaiterId): Sys {
    var r := Q.Leave(s.q, id, true);
    var s1 := Finish(s.(q := r.0), id);
    if r.1.Some? && r.1.value.Handoff? then Own(s1, r.1.value.value) else s1
  }

  function AfterPark(s: Sys, id: WaiterId): Sys {
    var r := Q.Park(s.q, id);
    s.(q := r.0, pc := s.pc[id := if r.1 then Routing else Waiting])
  }

  function AfterDone(s: Sys, id: WaiterId, slot: Slot): Sys {
    Finish(Own(s.(q := Q.Leave(s.q, id, false).0), slot), id)
  }

  predicate At(s: Sys, id: WaiterId, pc: Pc) { id in s.pc && s.pc[id] == pc }

  /** One step of the gateway. The router's mutex is free unless `arriving` is set. */
  ghost predicate Next(p: Params, cap: map<Worker, int>, s: Sys, l: Label, t: Sys) {
    match l
    case ArriveBusy(tenant, v) => s.arriving.None? && s.q.line.ws != [] && v.offered != {}
        && t == s.(arriving := Some(tenant))
    case EnqueueBusy(room) => s.arriving.Some? && t == Join(s, p, s.arriving.value, room).(arriving := None)
    case ArriveRoute(v, w) => s.arriving.None? && s.q.line.ws == [] && HasRoom(s, cap, v, w) && t == Take(s, w, None)
    case ArriveFull(tenant, v, room) => s.arriving.None? && s.q.line.ws == [] && v.offered != {} && AllFull(s, cap, v)
        && t == Join(s, p, tenant, room)
    case Retry(v, w) => s.arriving.None? && HasRoom(s, cap, v, w) && t == Take(s, w, None)
    case Release(slot, ok) => s.arriving.None? && t == if slot in s.live && s.live[slot].owner.None?
        then Give(s, slot, ok) else s
    case Read(id) => At(s, id, Waiting) && Inbox(s.q, id).Some? && t == AfterRead(s, id)
    case RouteOk(id, v, w) => s.arriving.None? && At(s, id, Routing) && HasRoom(s, cap, v, w)
        && t == Take(s, w, Some(id)).(pc := s.pc[id := Routed(s.nextSlot)])
    case RouteFull(id, v) => s.arriving.None? && At(s, id, Routing) && AllFull(s, cap, v)
        && t == s.(pc := s.pc[id := NoSlot])
    case RouteCancelled(id) => s.arriving.None? && At(s, id, Routing) && t == s.(pc := s.pc[id := NoSlot])
    case DoneStep(id) => id in s.pc && s.pc[id].Routed? && t == AfterDone(s, id, s.pc[id].s)
    case ParkStep(id) => At(s, id, NoSlot) && t == AfterPark(s, id)
    case GiveUp(id) => At(s, id, Waiting) && t == AfterLeave(s, id)
    case Panic(id) => (At(s, id, Routing) || At(s, id, NoSlot)) && t == AfterLeave(s, id)
    case WakeStep(n) => t == s.(q := Q.Wake(s.q, n).0)
    case FlushStep => t == s.(q := Q.Flush(s.q))
    case CloseStep => t == s.(q := s.q.(closed := true))
  }

  const Initial: Sys := Sys(State(Nobody, map[], 0, false), map[], map[], map[], 0, None, [])
}
