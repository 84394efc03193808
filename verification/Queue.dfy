/** The admission queue of one model, with direct slot hand-off (internal/resilience/queue.go).

    Every section that holds the queue's mutex is one operation. This module says what each operation means, as a
    function on a value; the class `Queues` carries them out on the per-model lists. A waiter's one-place channel is
    an option. A waiter record lives in the line until the waiter has left; after that only what is pending in its
    channel remains, in `gone`. */
module AdmissionQueue {
  import opened Prelude

  /** Waiters are numbered in the order in which Enqueue accepted them. */
  type WaiterId = nat

  /** What a releaser hands over: the token of a slot. */
  type Value = nat

  datatype Grant = Handoff(value: Value) | Reroute | Flushed

  datatype Waiter = Waiter(id: WaiterId, tenant: string, woken: bool, ch: Option<Grant>)

  /** The waiters of one model, oldest first. A model without waiters has no line at all, which is `Nobody`. */
  datatype Line = Line(ws: seq<Waiter>, tenants: map<string, nat>, credit: nat)

  const Nobody: Line := Line([], map[], 0)

  datatype State = State(line: Line, gone: map<WaiterId, Option<Grant>>, next: WaiterId, closed: bool)

  datatype QueueError = NoQueue | QueueFull | TenantShare | Draining

  datatype Params = Params(maxModelDepth: int, maxTenantShare: real, maxModels: int) {
    /** The most waiters one tenant may hold in one queue; 0 means no guard. */
    function TenantCap(): int {
      if maxTenantShare <= 0.0 || maxTenantShare >= 1.0 then 0
      else Max(1, (maxTenantShare * maxModelDepth as real + 0.000000001).Floor)
    }
  }

  function Held(tenants: map<string, nat>, tenant: string): nat { if tenant in tenants then tenants[tenant] else 0 }

  /** Why an Enqueue is refused. `room`: one more model may have waiters (only asked when this one has none). */
  function Refusal(p: Params, s: State, tenant: string, room: bool): Option<QueueError> {
    if s.closed then Some(Draining)
    else if p.maxModelDepth <= 0 then Some(NoQueue)
    else if s.line.ws == [] then if room then None else Some(NoQueue)
    else if |s.line.ws| >= p.maxModelDepth then Some(QueueFull)
    else if p.TenantCap() > 0 && tenant != "" && Held(s.line.tenants, tenant) >= p.TenantCap() then Some(TenantShare)
    else None
  }

  function Join(line: Line, id: WaiterId, tenant: string): Line {
    line.(ws := line.ws + [Waiter(id, tenant, false, None)],
          tenants := if tenant != "" then line.tenants[tenant := Held(line.tenants, tenant) + 1] else line.tenants)
  }

  /** An accepted Enqueue: the new waiter is `s.next`, at the tail. */
  function Append(s: State, tenant: string): State {
    s.(line := Join(s.line, s.next, tenant), next := s.next + 1)
  }

  /** Where a waiter stands; |ws| when it is not there. */
  function Pos(ws: seq<Waiter>, id: WaiterId): (k: nat)
    ensures k <= |ws| && (k < |ws| ==> ws[k].id == id)
    ensures forall i :: 0 <= i < k ==> ws[i].id != id
  {
    if ws == [] then 0 else if ws[0].id == id then 0 else 1 + Pos(ws[1..], id)
  }

  function Uncount(tenants: map<string, nat>, tenant: string): map<string, nat> {
    if tenant == "" then tenants
    else if Held(tenants, tenant) <= 1 then tenants - {tenant}
    else tenants[tenant := tenants[tenant] - 1]
  }

  /** leaveLocked up to, and not including, the settling of credit. */
  function Unlink(line: Line, k: nat): Line
    requires k < |line.ws|
  {
    if |line.ws| == 1 then Nobody
    else line.(ws := line.ws[..k] + line.ws[k + 1..], tenants := Uncount(line.tenants, line.ws[k].tenant))
  }

  function Told(w: Waiter, self: Option<WaiterId>): Waiter {
    w.(woken := true, ch := if self == Some(w.id) then w.ch else Some(Reroute))
  }

  /** The first `n` waiters that are not routing are told to route; `self` is not told through its channel. Returns
      also how many of the `n` found nobody. */
  function Rouse(ws: seq<Waiter>, n: nat, self: Option<WaiterId>): (seq<Waiter>, nat) {
    if ws == [] || n == 0 then (ws, n)
    else if ws[0].woken then var r := Rouse(ws[1..], n, self); ([ws[0]] + r.0, r.1)
    else var r := Rouse(ws[1..], n - 1, self); ([Told(ws[0], self)] + r.0, r.1)
  }

  /** settle: credit is spent on the first idle waiters, in queue order. */
  function Settle(line: Line, self: Option<WaiterId>): Line {
    var r := Rouse(line.ws, line.credit, self);
    line.(ws := r.0, credit := r.1)
  }

  function Bank(line: Line): Line { line.(credit := line.credit + 1) }

  function HandOver(s: State, value: Value): (State, bool) {
    if s.line.ws == [] then (s, false)
    else if s.line.ws[0].woken then (s.(line := Settle(Bank(s.line), None)), false)
    else (s.(line := Unlink(s.line, 0), gone := s.gone[s.line.ws[0].id := Some(Handoff(value))]), true)
  }

  function Wake(s: State, n: int): (State, nat) {
    if n <= 0 then (s, 0)
    else
      var r := Rouse(s.line.ws, n, None);
      RouseLeft(s.line.ws, n, None);
      (s.(line := s.line.(ws := r.0)), n - r.1)
  }

  lemma RouseLeft(ws: seq<Waiter>, n: nat, self: Option<WaiterId>)
    ensures Rouse(ws, n, self).1 <= n && |Rouse(ws, n, self).0| == |ws|
  {
  }

  function Parked(line: Line, k: nat): (after: Line)
    requires k < |line.ws|
    ensures |after.ws| == |line.ws|
  {
    RouseLeft(line.ws[k := line.ws[k].(woken := false)], line.credit, Some(line.ws[k].id));
    Settle(line.(ws := line.ws[k := line.ws[k].(woken := false)]), Some(line.ws[k].id))
  }

  /** Park: the waiter goes back to sleep unless banked credit makes it route again. */
  function Park(s: State, id: WaiterId): (State, bool) {
    var k := Pos(s.line.ws, id);
    if k == |s.line.ws| then (s, false)
    else (s.(line := Parked(s.line, k)), Parked(s.line, k).ws[k].woken)
  }

  /** The line after one waiter left it: its unused wake-up is given back, and credit goes to those who stay. */
  function Departed(line: Line, k: nat, giveBack: bool): Line
    requires k < |line.ws|
  {
    var rest := Unlink(line, k);
    Settle(if giveBack && line.ws[k].woken && rest.ws != [] then Bank(rest) else rest, None)
  }

  /** Leave (`giveBack`) and Done: a waiter that has already left takes a pending hand-off with it. */
  function Leave(s: State, id: WaiterId, giveBack: bool): (State, Option<Grant>) {
    var k := Pos(s.line.ws, id);
    if k < |s.line.ws| then
      var ch := s.line.ws[k].ch;
      (s.(line := Departed(s.line, k, giveBack), gone := s.gone[id := None]),
       if ch.Some? && !ch.value.Reroute? then ch else None)
    else if id in s.gone then
      (s.(gone := s.gone[id := None]), if s.gone[id].Some? && s.gone[id].value.Handoff? then s.gone[id] else None)
    else (s, None)
  }

  /** The waiter reads its channel. */
  function Receive(s: State, id: WaiterId): State {
    var k := Pos(s.line.ws, id);
    if k < |s.line.ws| then s.(line := s.line.(ws := s.line.ws[k := s.line.ws[k].(ch := None)]))
    else if id in s.gone then s.(gone := s.gone[id := None])
    else s
  }

  /** Everyone in `ws` leaves and is told that the gateway drains. */
  function Tell(ws: seq<Waiter>, gone: map<WaiterId, Option<Grant>>): map<WaiterId, Option<Grant>> {
    if ws == [] then gone else Tell(ws[1..], gone[ws[0].id := Some(Flushed)])
  }

  function Flush(s: State): State { s.(line := Nobody, gone := Tell(s.line.ws, s.gone)) }

  // ------------------------------------------------------------------ invariant

  function OfTenant(ws: seq<Waiter>, tenant: string): nat {
    if ws == [] then 0 else (if ws[0].tenant == tenant then 1 else 0) + OfTenant(ws[1..], tenant)
  }

  ghost predicate InOrder(ws: seq<Waiter>) { forall i, j :: 0 <= i < j < |ws| ==> ws[i].id < ws[j].id }

  /** A sleeping waiter has an empty channel; a routing one has at most its Reroute pending. */
  ghost predicate ChannelOk(w: Waiter) { if w.woken then w.ch == None || w.ch == Some(Reroute) else w.ch == None }

  /** The counters are the actual waiters of each tenant, within the depth and the share. */
  ghost predicate Counted(p: Params, line: Line) {
    && |line.ws| <= Max(0, p.maxModelDepth)
    && (forall t :: t in line.tenants ==> t != "" && line.tenants[t] > 0)
    && (forall t :: t != "" ==> Held(line.tenants, t) == OfTenant(line.ws, t))
    && (p.TenantCap() > 0 ==> forall t :: t in line.tenants ==> line.tenants[t] <= p.TenantCap())
  }

  ghost predicate LineOk(p: Params, line: Line) {
    && InOrder(line.ws)
    && (forall i :: 0 <= i < |line.ws| ==> ChannelOk(line.ws[i]))
    && Counted(p, line)
    && (line.credit > 0 ==> line.ws != [] && line.ws[0].woken)
  }

  ghost predicate Inv(p: Params, s: State) {
    && LineOk(p, s.line)
    && (forall i :: 0 <= i < |s.line.ws| ==> s.line.ws[i].id < s.next && s.line.ws[i].id !in s.gone)
    && (forall id :: id in s.gone ==> id < s.next && s.gone[id] != Some(Reroute))
  }

  // ------------------------------------------------------------------ facts about lines

  /** How many waiters are not routing. */
  function Idles(ws: seq<Waiter>): nat { if ws == [] then 0 else (if ws[0].woken then 0 else 1) + Idles(ws[1..]) }

  /** What telling `n` waiters does, without saying how: lists keep their order and members, each waiter is as before
      or was idle and has been told, those told precede those still idle, as many have been told as were not left over
      of the `n`, and everyone is routing if some were. */
  ghost predicate Roused(ws: seq<Waiter>, n: nat, self: Option<WaiterId>, after: seq<Waiter>, over: nat) {
    && |after| == |ws| && over <= n
    && (forall i :: 0 <= i < |ws| ==> after[i] == ws[i] || (!ws[i].woken && after[i] == Told(ws[i], self)))
    && (forall i, j :: 0 <= i < j < |ws| && !after[i].woken ==> after[j] == ws[j])
    && (over == 0 || forall i :: 0 <= i < |ws| ==> after[i].woken)
    && Idles(ws) - Idles(after) == n - over
  }

  lemma {:induction false} RouseRouses(ws: seq<Waiter>, n: nat, self: Option<WaiterId>)
    ensures Roused(ws, n, self, Rouse(ws, n, self).0, Rouse(ws, n, self).1)
  {
    if ws != [] && n > 0 {
      RouseRouses(ws[1..], if ws[0].woken then n else n - 1, self);
    }
  }

  /** Who is told: an idle waiter with fewer than `n` idle ones before it. */
  lemma {:induction false} RouseReaches(ws: seq<Waiter>, n: nat, self: Option<WaiterId>, j: nat)
    requires j < |ws|
    ensures |Rouse(ws, n, self).0| == |ws|
    ensures Rouse(ws, n, self).0[j].woken <==> ws[j].woken || Idles(ws[..j]) < n
  {
    RouseLeft(ws, n, self);
    if n > 0 && j > 0 {
      assert ws[..j][1..] == ws[1..][..j - 1];
      RouseReaches(ws[1..], if ws[0].woken then n else n - 1, self, j - 1);
    }
  }

  lemma RouseSingle(w: Waiter, n: nat, self: Option<WaiterId>)
    requires n > 0
    ensures Rouse([w], n, self) == if w.woken then ([w], n) else ([Told(w, self)], n - 1)
  {
    var rest := [w][1..];
    assert rest == [] && Rouse(rest, n, self) == (rest, n) && Rouse(rest, n - 1, self) == (rest, n - 1);
    assert [w] + rest == [w] && [Told(w, self)] + rest == [Told(w, self)];
  }

  lemma {:induction false} OfTenantAppend(a: seq<Waiter>, b: seq<Waiter>, t: string)
    ensures OfTenant(a + b, t) == OfTenant(a, t) + OfTenant(b, t)
  {
    if a == [] { assert a + b == b; } else { assert (a + b)[1..] == a[1..] + b; OfTenantAppend(a[1..], b, t); }
  }

  lemma {:induction false} OfTenantSame(a: seq<Waiter>, b: seq<Waiter>, t: string)
    requires |a| == |b| && forall i :: 0 <= i < |a| ==> a[i].tenant == b[i].tenant
    ensures OfTenant(a, t) == OfTenant(b, t)
  {
    if a != [] { OfTenantSame(a[1..], b[1..], t); }
  }

  lemma OfTenantOut(ws: seq<Waiter>, k: nat, t: string)
    requires k < |ws|
    ensures OfTenant(ws, t) == OfTenant(ws[..k] + ws[k + 1..], t) + if ws[k].tenant == t then 1 else 0
  {
    assert ws == ws[..k] + ([ws[k]] + ws[k + 1..]);
    OfTenantAppend(ws[..k], [ws[k]] + ws[k + 1..], t);
    OfTenantAppend([ws[k]], ws[k + 1..], t);
    OfTenantAppend(ws[..k], ws[k + 1..], t);
  }

  lemma CountedSame(p: Params, a: Line, b: Line)
    requires Counted(p, a) && a.tenants == b.tenants && |a.ws| == |b.ws|
    requires forall i :: 0 <= i < |a.ws| ==> a.ws[i].tenant == b.ws[i].tenant
    ensures Counted(p, b)
  {
    forall t ensures OfTenant(a.ws, t) == OfTenant(b.ws, t) { OfTenantSame(a.ws, b.ws, t); }
  }

  ghost predicate AllTold(ws: seq<Waiter>, gone: map<WaiterId, Option<Grant>>) {
    forall i :: 0 <= i < |ws| ==> ws[i].id in gone && gone[ws[i].id] == Some(Flushed)
  }

  ghost predicate Has(ws: seq<Waiter>, id: WaiterId) { exists i :: 0 <= i < |ws| && ws[i].id == id }

  lemma {:induction false} TellTells(ws: seq<Waiter>, gone: map<WaiterId, Option<Grant>>)
    ensures AllTold(ws, Tell(ws, gone))
    ensures forall id :: id in gone && !Has(ws, id) ==> id in Tell(ws, gone) && Tell(ws, gone)[id] == gone[id]
    ensures forall id :: id in Tell(ws, gone) ==> id in gone || Has(ws, id)
  {
    if ws != [] {
      var next := gone[ws[0].id := Some(Flushed)];
      TellTells(ws[1..], next);
      assert forall id :: Has(ws[1..], id) ==> Has(ws, id);
      assert Has(ws, ws[0].id);
      assert forall id :: Has(ws, id) ==> id == ws[0].id || Has(ws[1..], id) by {
        forall id | Has(ws, id) ensures id == ws[0].id || Has(ws[1..], id) {
          var i :| 0 <= i < |ws| && ws[i].id == id;
          if i > 0 { assert ws[1..][i - 1].id == id; }
        }
      }
      if !Has(ws[1..], ws[0].id) { assert Tell(ws, gone)[ws[0].id] == Some(Flushed); }
      else { var i :| 0 <= i < |ws[1..]| && ws[1..][i].id == ws[0].id; }
      forall i | 0 <= i < |ws| ensures ws[i].id in Tell(ws, gone) && Tell(ws, gone)[ws[i].id] == Some(Flushed) {
        if i > 0 { assert ws[i] == ws[1..][i - 1]; }
      }
    }
  }

  // ------------------------------------------------------------------ what each operation keeps

  /** Settling repairs the credit rule and keeps the others. */
  lemma SettleKeeps(p: Params, line: Line, self: Option<WaiterId>)
    requires InOrder(line.ws) && Counted(p, line) && (line.ws == [] ==> line.credit == 0)
    requires forall i :: 0 <= i < |line.ws| ==> ChannelOk(line.ws[i])
    ensures LineOk(p, Settle(line, self)) && |Settle(line, self).ws| == |line.ws|
    ensures forall i :: 0 <= i < |line.ws| ==> Settle(line, self).ws[i].id == line.ws[i].id
  {
    RouseRouses(line.ws, line.credit, self);
    CountedSame(p, line, Settle(line, self));
  }

  lemma UnlinkKeeps(p: Params, line: Line, k: nat)
    requires LineOk(p, line) && k < |line.ws|
    ensures var rest := Unlink(line, k);
            && InOrder(rest.ws) && Counted(p, rest) && |rest.ws| == |line.ws| - 1
            && (rest.ws == [] ==> rest == Nobody)
            && (forall i :: 0 <= i < |rest.ws| ==> rest.ws[i] == line.ws[if i < k then i else i + 1])
  {
    var rest := Unlink(line, k);
    if |line.ws| > 1 {
      forall t | t != "" ensures Held(rest.tenants, t) == OfTenant(rest.ws, t) { OfTenantOut(line.ws, k, t); }
    }
  }

  lemma JoinKeeps(p: Params, s: State, tenant: string, room: bool)
    requires Inv(p, s) && Refusal(p, s, tenant, room).None?
    ensures Inv(p, Append(s, tenant))
  {
    var line, more := s.line, Join(s.line, s.next, tenant);
    forall t | t != "" ensures Held(more.tenants, t) == OfTenant(more.ws, t) {
      OfTenantAppend(line.ws, [Waiter(s.next, tenant, false, None)], t);
      assert OfTenant([Waiter(s.next, tenant, false, None)], t) == if t == tenant then 1 else 0;
    }
  }

  lemma BankKeeps(p: Params, line: Line)
    requires LineOk(p, line) && line.ws != []
    ensures var after := Settle(Bank(line), None);
            LineOk(p, after) && |after.ws| == |line.ws| && forall i :: 0 <= i < |line.ws|
                                                                       ==> after.ws[i].id == line.ws[i].id
  {
    assert Counted(p, Bank(line));
    SettleKeeps(p, Bank(line), None);
  }

  lemma HandOverKeeps(p: Params, s: State, value: Value)
    requires Inv(p, s)
    ensures Inv(p, HandOver(s, value).0)
  {
    if s.line.ws != [] {
      if s.line.ws[0].woken { BankKeeps(p, s.line); } else { UnlinkKeeps(p, s.line, 0); }
    }
  }

  lemma WakeKeeps(p: Params, s: State, n: int)
    requires Inv(p, s)
    ensures Inv(p, Wake(s, n).0)
  {
    if n > 0 {
      RouseRouses(s.line.ws, n, None);
      CountedSame(p, s.line, Wake(s, n).0.line);
    }
  }

  /** Park is called by a waiter that has read its Reroute. */
  lemma ParkKeeps(p: Params, s: State, id: WaiterId)
    requires Inv(p, s) && forall w :: w in s.line.ws && w.id == id ==> w.ch == None
    ensures Inv(p, Park(s, id).0)
  {
    var k := Pos(s.line.ws, id);
    if k < |s.line.ws| {
      assert s.line.ws[k] in s.line.ws;
      var line := s.line.(ws := s.line.ws[k := s.line.ws[k].(woken := false)]);
      CountedSame(p, s.line, line);
      SettleKeeps(p, line, Some(id));
    }
  }

  /** What a departure leaves is a sound line of the others. */
  lemma DepartedKeeps(p: Params, line: Line, k: nat, giveBack: bool)
    requires LineOk(p, line) && k < |line.ws|
    ensures var rest := Departed(line, k, giveBack);
            && LineOk(p, rest) && |rest.ws| == |line.ws| - 1
            && forall i :: 0 <= i < |rest.ws| ==> rest.ws[i].id == line.ws[if i < k then i else i + 1].id
  {
    var rest := Unlink(line, k);
    UnlinkKeeps(p, line, k);
    var back := if giveBack && line.ws[k].woken && rest.ws != [] then Bank(rest) else rest;
    assert Counted(p, back);
    SettleKeeps(p, back, None);
  }

  lemma LeaveKeeps(p: Params, s: State, id: WaiterId, giveBack: bool)
    requires Inv(p, s)
    ensures Inv(p, Leave(s, id, giveBack).0)
  {
    var k := Pos(s.line.ws, id);
    if k < |s.line.ws| { DepartedKeeps(p, s.line, k, giveBack); }
  }

  lemma ReceiveKeeps(p: Params, s: State, id: WaiterId)
    requires Inv(p, s)
    ensures Inv(p, Receive(s, id))
  {
    var k := Pos(s.line.ws, id);
    if k < |s.line.ws| { CountedSame(p, s.line, Receive(s, id).line); }
  }

  lemma FlushKeeps(p: Params, s: State)
    requires Inv(p, s)
    ensures Inv(p, Flush(s))
  {
    TellTells(s.line.ws, s.gone);
  }
}
