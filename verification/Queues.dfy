/** The queue set of the gateway: one line per model that has waiters (internal/resilience/queue.go). The methods work
    on the lists step by step; each is proved to do to its own model what AdmissionQueue says, and nothing to the
    lines of other models. */
module QueueSet {
  import opened Prelude
  import opened AdmissionQueue

  // ------------------------------------------------------------------ the loops of the source, on one line

  lemma {:induction false} RouseOne(ws: seq<Waiter>, n: nat, self: Option<WaiterId>, k: nat)
    requires n > 0 && k < |ws| && !ws[k].woken && forall i :: 0 <= i < k ==> ws[i].woken
    ensures Rouse(ws, n, self) == Rouse(ws[k := Told(ws[k], self)], n - 1, self)
  {
    var next := ws[k := Told(ws[k], self)];
    if k == 0 {
      assert next[1..] == ws[1..] && next[0].woken;
      if n == 1 { assert next == [next[0]] + ws[1..]; }
    } else {
      assert next[1..] == ws[1..][k - 1 := Told(ws[k], self)];
      RouseOne(ws[1..], n, self, k - 1);
      if n == 1 { assert next == [ws[0]] + next[1..]; }
    }
  }

  lemma {:induction false} RouseNobody(ws: seq<Waiter>, n: nat, self: Option<WaiterId>)
    requires forall i :: 0 <= i < |ws| ==> ws[i].woken
    ensures Rouse(ws, n, self) == (ws, n)
  {
    if ws != [] && n > 0 { RouseNobody(ws[1..], n, self); assert ws == [ws[0]] + ws[1..]; }
  }

  lemma {:induction false} RouseSplit(a: seq<Waiter>, b: seq<Waiter>, n: nat, self: Option<WaiterId>)
    ensures var r := Rouse(a, n, self); var q := Rouse(b, r.1, self); Rouse(a + b, n, self) == (r.0 + q.0, q.1)
  {
    if a == [] || n == 0 {
      assert [] + b == b;
      assert Rouse(b, n, self).0 == [] + Rouse(b, n, self).0;
    } else {
      assert (a + b)[1..] == a[1..] + b;
      var n1 := if a[0].woken then n else n - 1;
      RouseSplit(a[1..], b, n1, self);
      var head := [if a[0].woken then a[0] else Told(a[0], self)];
      var r := Rouse(a[1..], n1, self);
      assert head + (r.0 + Rouse(b, r.1, self).0) == (head + r.0) + Rouse(b, r.1, self).0;
    }
  }

  method FindIdle(ws: seq<Waiter>) returns (k: nat)
    ensures k <= |ws| && (forall i :: 0 <= i < k ==> ws[i].woken) && (k < |ws| ==> !ws[k].woken)
  {
    k := 0;
    while k < |ws| && ws[k].woken
      invariant k <= |ws| && forall i :: 0 <= i < k ==> ws[i].woken
    {
      k := k + 1;
    }
  }

  /** settle: one unit of credit at a time, the front searched again for each. */
  method SettleLine(line: Line, self: Option<WaiterId>) returns (after: Line, routes: bool)
    requires InOrder(line.ws)
    ensures after == Settle(line, self)
    ensures routes <==>
              self.Some? && exists k :: 0 <= k < |line.ws| && |after.ws| == |line.ws|
                                        && line.ws[k].id == self.value && !line.ws[k].woken && after.ws[k].woken
  {
    after, routes := line, false;
    while after.credit > 0
      invariant |after.ws| == |line.ws| && after.tenants == line.tenants
      invariant Settle(after, self) == Settle(line, self)
      invariant forall i :: 0 <= i < |line.ws| ==> after.ws[i] == line.ws[i]
                                                   || (!line.ws[i].woken && after.ws[i] == Told(line.ws[i], self))
      invariant routes <==> self.Some? && exists k :: 0 <= k < |line.ws| && line.ws[k].id == self.value
                                                      && !line.ws[k].woken && after.ws[k].woken
      decreases after.credit
    {
      var k := FindIdle(after.ws);
      if k == |after.ws| {
        RouseNobody(after.ws, after.credit, self);
        return;
      }
      RouseOne(after.ws, after.credit, self, k);
      var before := after;
      if self == Some(after.ws[k].id) { routes := true; }
      after := after.(ws := after.ws[k := Told(after.ws[k], self)], credit := after.credit - 1);
    }
  }

  method RouseLine(ws: seq<Waiter>, n: int) returns (after: seq<Waiter>, woken: nat)
    ensures n <= 0 ==> after == ws && woken == 0
    ensures n > 0 ==> woken <= n && (after, n - woken) == Rouse(ws, n, None)
  {
    var done, e := [], 0;
    woken := 0;
    while e < |ws| && woken < n
      invariant e <= |ws| && (n <= 0 ==> done == [] && e == 0 && woken == 0) && (n > 0 ==> woken <= n)
      invariant n > 0 ==> Rouse(ws[..e], n, None) == (done, n - woken)
    {
      RouseSplit(ws[..e], [ws[e]], n, None);
      RouseSingle(ws[e], n - woken, None);
      assert ws[..e + 1] == ws[..e] + [ws[e]];
      if ws[e].woken {
        done := done + [ws[e]];
      } else {
        done := done + [Told(ws[e], None)];
        woken := woken + 1;
      }
      e := e + 1;
    }
    after := done + ws[e..];
    if n > 0 {
      RouseSplit(ws[..e], ws[e..], n, None);
      assert ws == ws[..e] + ws[e..];
    }
  }

  method ParkLine(line: Line, k: nat) returns (after: Line, routes: bool)
    requires InOrder(line.ws) && k < |line.ws|
    ensures after == Parked(line, k) && routes == after.ws[k].woken
  {
    var idle := line.(ws := line.ws[k := line.ws[k].(woken := false)]);
    after, routes := SettleLine(idle, Some(line.ws[k].id));
    RouseRouses(idle.ws, idle.credit, Some(line.ws[k].id));
    forall i | 0 <= i < |idle.ws| && idle.ws[i].id == line.ws[k].id ensures i == k {}
  }

  method LeaveLine(p: Params, line: Line, k: nat, giveBack: bool) returns (after: Line)
    requires LineOk(p, line) && k < |line.ws|
    ensures after == Departed(line, k, giveBack)
  {
    UnlinkKeeps(p, line, k);
    var rest := Unlink(line, k);
    if giveBack && line.ws[k].woken && rest.ws != [] { rest := Bank(rest); }
    var routes;
    after, routes := SettleLine(rest, None);
  }

  method FlushLine(ws: seq<Waiter>, gone: map<WaiterId, Option<Grant>>) returns (away: map<WaiterId, Option<Grant>>)
    ensures away == Tell(ws, gone)
  {
    var n := 0;
    away := gone;
    while n < |ws|
      invariant n <= |ws| && Tell(ws[n..], away) == Tell(ws, gone)
    {
      away := away[ws[n].id := Some(Flushed)];
      n := n + 1;
    }
  }

  ghost predicate Keeps(gone: map<WaiterId, Option<Grant>>, away: map<WaiterId, Option<Grant>>) {
    forall id :: id in gone ==> id in away && away[id] == gone[id]
  }

  lemma StillTold(ws: seq<Waiter>, gone: map<WaiterId, Option<Grant>>, away: map<WaiterId, Option<Grant>>)
    requires AllTold(ws, gone) && Keeps(gone, away)
    ensures AllTold(ws, away)
  {
  }

  // ------------------------------------------------------------------ the queue set

  /** The waiters of a line belong to its model and have not left. */
  ghost predicate Placed(model: string, line: Line, home: map<WaiterId, string>, gone: map<WaiterId, Option<Grant>>) {
    forall i :: 0 <= i < |line.ws| ==> line.ws[i].id in home && home[line.ws[i].id] == model && line.ws[i].id !in gone
  }

  ghost predicate LinesOk(p: Params, models: map<string, Line>, home: map<WaiterId, string>, gone: map<WaiterId,
      Option<Grant>>) {
    forall m :: m in models ==> models[m].ws != [] && LineOk(p, models[m]) && Placed(m, models[m], home, gone)
  }

  ghost predicate AwayOk(home: map<WaiterId, string>, gone: map<WaiterId, Option<Grant>>, next: WaiterId) {
    && (forall id :: id in home ==> id < next)
    && (forall id :: id in gone ==> id in home && gone[id] != Some(Reroute))
  }

  function Put(models: map<string, Line>, model: string, line: Line): map<string, Line> {
    if line.ws == [] then models - {model} else models[model := line]
  }

  lemma PutKeeps(p: Params, models: map<string, Line>, home: map<WaiterId, string>, gone: map<WaiterId, Option<Grant>>,
                 model: string, line: Line, away: map<WaiterId, Option<Grant>>)
    requires LinesOk(p, models, home, gone)
    requires line.ws != [] ==> LineOk(p, line) && Placed(model, line, home, away)
    requires forall id :: id in away && id !in gone ==> id in home && home[id] == model
    ensures LinesOk(p, Put(models, model, line), home, away)
  {
  }

  lemma PutSize(models: map<string, Line>, model: string, line: Line)
    ensures |Put(models, model, line)| <= |models| + 1
    ensures model in models || line.ws == [] ==> |Put(models, model, line)| <= |models|
  {
    if line.ws == [] {
      assert Put(models, model, line).Keys == models.Keys - {model};
    } else {
      assert Put(models, model, line).Keys == models.Keys + {model};
    }
  }

  /** How far a flush has got with one model. */
  ghost predicate FlushedBy(before: map<string, Line>, model: string, todo: set<string>, m: string, line: Line,
      gone: map<WaiterId, Option<Grant>>) {
    if (model == "" || m == model) && m !in todo then line == Nobody && AllTold(LineIn(before, m).ws, gone)
        else line == LineIn(before, m)
  }

  lemma FlushStep(before: map<string, Line>, model: string, todo: set<string>, m: string, x: string, was: Line,
      line: Line,
                  gone: map<WaiterId, Option<Grant>>, away: map<WaiterId, Option<Grant>>)
    requires m in todo && FlushedBy(before, model, todo, x, was, gone) && Keeps(gone, away)
    requires if x == m && (model == "" || m == model) then line == Nobody && AllTold(was.ws, away) else line == was
    ensures FlushedBy(before, model, todo - {m}, x, line, away)
  {
    if (model == "" || x == model) && x !in todo { StillTold(LineIn(before, x).ws, gone, away); }
  }

  /** The waiters of model `m` that a flush of `model` removes. */
  function Flushable(models: map<string, Line>, model: string, m: string): nat {
    if model == "" || m == model then |LineIn(models, m).ws| else 0
  }

  ghost function AnyOf(s: set<string>): (m: string)
    requires s != {}
    ensures m in s
  {
    var m :| m in s; m
  }

  /** All the waiters of these models that a flush of `model` removes. */
  ghost function FlushCount(models: map<string, Line>, model: string, of: set<string>): nat {
    if of == {} then 0 else var m := AnyOf(of); Flushable(models, model, m) + FlushCount(models, model, of - {m})
  }

  lemma {:induction false} FlushCountAnyOrder(models: map<string, Line>, model: string, of: set<string>, m: string)
    requires m in of
    ensures FlushCount(models, model, of) == Flushable(models, model, m) + FlushCount(models, model, of - {m})
    decreases of
  {
    var x := AnyOf(of);
    if x != m {
      FlushCountAnyOrder(models, model, of - {x}, m);
      FlushCountAnyOrder(models, model, of - {m}, x);
      assert of - {x} - {m} == of - {m} - {x};
    }
  }

  function LineIn(models: map<string, Line>, model: string): Line {
    if model in models then models[model] else Nobody
  }

  ghost predicate Sound(p: Params, models: map<string, Line>, home: map<WaiterId, string>, gone: map<WaiterId,
      Option<Grant>>, next: WaiterId) {
    LinesOk(p, models, home, gone) && AwayOk(home, gone, next) && (p.maxModels > 0 ==> |models| <= p.maxModels)
  }

  lemma JoinSound(p: Params, models: map<string, Line>, home: map<WaiterId, string>, gone: map<WaiterId, Option<Grant>>,
                  next: WaiterId, model: string, tenant: string, room: bool)
    requires Sound(p, models, home, gone, next) && room == (p.maxModels <= 0 || |models| < p.maxModels)
    requires Refusal(p, State(LineIn(models, model), gone, next, false), tenant, room).None?
    ensures Sound(p, models[model := Join(LineIn(models, model), next, tenant)], home[next := model], gone, next + 1)
  {
    var line := LineIn(models, model);
    PutSize(models, model, Join(line, next, tenant));
    JoinKeeps(p, State(line, gone, next, false), tenant, room);
    JoinPlaced(p, models, home, gone, next, model, tenant);
    PutKeeps(p, models, home[next := model], gone, model, Join(line, next, tenant), gone);
  }

  lemma JoinPlaced(p: Params, models: map<string, Line>, home: map<WaiterId, string>, gone: map<WaiterId,
      Option<Grant>>,
                   next: WaiterId, model: string, tenant: string)
    requires LinesOk(p, models, home, gone) && AwayOk(home, gone, next)
    ensures LinesOk(p, models, home[next := model], gone) && AwayOk(home[next := model], gone, next + 1)
    ensures Placed(model, Join(LineIn(models, model), next, tenant), home[next := model], gone)
  {
    assert next !in gone && next !in home;
  }

  ghost predicate AtHome(ws: seq<Waiter>, home: map<WaiterId, string>, model: string) {
    forall i :: 0 <= i < |ws| ==> ws[i].id in home && home[ws[i].id] == model
  }

  lemma RouseAtHome(ws: seq<Waiter>, n: nat, self: Option<WaiterId>, home: map<WaiterId, string>, model: string)
    requires AtHome(ws, home, model)
    ensures AtHome(Rouse(ws, n, self).0, home, model)
  {
    RouseRouses(ws, n, self);
  }

  lemma ParkedAtHome(line: Line, k: nat, home: map<WaiterId, string>, model: string)
    requires AtHome(line.ws, home, model) && k < |line.ws|
    ensures AtHome(Parked(line, k).ws, home, model)
  {
    RouseAtHome(line.ws[k := line.ws[k].(woken := false)], line.credit, Some(line.ws[k].id), home, model);
  }

  lemma DepartedAtHome(line: Line, k: nat, giveBack: bool, home: map<WaiterId, string>, model: string)
    requires AtHome(line.ws, home, model) && k < |line.ws| 
    ensures AtHome(Departed(line, k, giveBack).ws, home, model)
    ensures Departed(line, k, giveBack).ws == [] ==> Departed(line, k, giveBack) == Nobody
  {
    var rest := Unlink(line, k);
    if giveBack && line.ws[k].woken && rest.ws != [] { rest := Bank(rest); }
    RouseAtHome(rest.ws, rest.credit, None, home, model);
    RouseLeft(rest.ws, rest.credit, None);
  }

  /** A changed line and changed channels of one model leave the whole set sound. */
  lemma StoreSound(p: Params, models: map<string, Line>, home: map<WaiterId, string>, gone: map<WaiterId,
      Option<Grant>>, next: WaiterId,
                   model: string, line: Line, away: map<WaiterId, Option<Grant>>)
    requires Sound(p, models, home, gone, next) && model in models
    requires Inv(p, State(line, away, next, false)) && AtHome(line.ws, home, model)
    requires forall id :: id in away && id !in gone ==> id in home && home[id] == model
    ensures Sound(p, Put(models, model, line), home, away, next)
  {
    PutSize(models, model, line);
    PutKeeps(p, models, home, gone, model, line, away);
  }

  class Queues {
    const p: Params
    var models: map<string, Line>
    var home: map<WaiterId, string>
    var gone: map<WaiterId, Option<Grant>>
    var next: WaiterId
    var closed: bool

    constructor (p: Params)
      ensures this.p == p && Valid() && forall m :: View(m) == State(Nobody, map[], 0, false)
    {
      this.p := p;
      models, home, gone, next, closed := map[], map[], map[], 0, false;
    }

    function LineOf(model: string): Line
      reads this
    {
      LineIn(models, model)
    }

    /** What the rest of the program sees of one model. */
    function View(model: string): State
      reads this
    {
      State(LineOf(model), gone, next, closed)
    }

    ghost predicate Valid()
      reads this
    {
      Sound(p, models, home, gone, next)
    }

    /** Every model satisfies the queue invariant. */
    lemma ValidInv(model: string)
      requires Valid()
      ensures Inv(p, View(model))
    {
    }

    predicate Busy(model: string)
      reads this
    {
      model in models && |models[model].ws| > 0
    }

    predicate Room()
      reads this
    {
      p.maxModels <= 0 || |models| < p.maxModels
    }

    twostate predicate OthersUnchanged(model: string)
      reads this
    {
      forall m :: m != model ==> LineOf(m) == old(LineOf(m))
    }

    /** refuseLocked */
    method Refuse(model: string, tenant: string) returns (err: Option<QueueError>)
      requires Valid()
      ensures err == Refusal(p, View(model), tenant, Room())
    {
      if closed { return Some(Draining); }
      if p.maxModelDepth <= 0 { return Some(NoQueue); }
      if model !in models {
        if p.maxModels > 0 && |models| >= p.maxModels { return Some(NoQueue); }
        return None;
      }
      if |models[model].ws| >= p.maxModelDepth { return Some(QueueFull); }
      var c := p.TenantCap();
      if c > 0 && tenant != "" && Held(models[model].tenants, tenant) >= c { return Some(TenantShare); }
      return None;
    }

    method Enqueue(model: string, tenant: string) returns (r: Option<WaiterId>, err: Option<QueueError>)
      requires Valid()
      modifies this
      ensures Valid() && OthersUnchanged(model)
      ensures err == Refusal(p, old(View(model)), tenant, old(Room()))
      ensures err.None? ==> r == Some(old(next)) && View(model) == Append(old(View(model)), tenant)
      ensures err.Some? ==> r.None? && View(model) == old(View(model))
    {
      err := Refuse(model, tenant);
      if err.Some? { return None, err; }
      var id := Accept(model, tenant);
      return Some(id), None;
    }

    method Accept(model: string, tenant: string) returns (id: WaiterId)
      requires Valid() && Refusal(p, View(model), tenant, Room()).None?
      modifies this
      ensures Valid() && OthersUnchanged(model) && id == old(next) && View(model) == Append(old(View(model)), tenant)
    {
      JoinSound(p, models, home, gone, next, model, tenant, Room());
      id := Link(model, tenant);
    }

    method Link(model: string, tenant: string) returns (id: WaiterId)
      modifies this`models, this`home, this`next
      ensures models == old(models)[model := Join(LineIn(old(models), model), old(next), tenant)]
      ensures home == old(home)[old(next) := model] && next == old(next) + 1 && id == old(next)
      ensures OthersUnchanged(model) && View(model) == Append(old(View(model)), tenant)
    {
      id := next;
      models, home, next := models[model := Join(LineOf(model), next, tenant)], home[next := model], next + 1;
    }

    /** Store a line and the channels of those who left it; a model whose last waiter left is forgotten. */
    method Store(model: string, line: Line, away: map<WaiterId, Option<Grant>>)
      requires Valid() && model in models && (line.ws == [] ==> line == Nobody)
      requires Inv(p, State(line, away, next, false)) && AtHome(line.ws, home, model)
      requires forall id :: id in away && id !in gone ==> id in home && home[id] == model
      modifies this`models, this`gone
      ensures Valid() && OthersUnchanged(model) && View(model) == State(line, away, next, closed)
    {
      StoreSound(p, models, home, gone, next, model, line, away);
      models, gone := Put(models, model, line), away;
    }

    lemma AllAtHome(model: string)
      requires Valid() && model in models
      ensures AtHome(models[model].ws, home, model)
    {
    }

    method Handoff(model: string, value: Value) returns (handed: bool)
      requires Valid()
      modifies this
      ensures Valid() && OthersUnchanged(model)
      ensures (View(model), handed) == HandOver(old(View(model)), value)
    {
      if !Busy(model) { return false; }
      if models[model].ws[0].woken {
        BankWakeUp(model, value);
        return false;
      }
      HandToHead(model, value);
      return true;
    }

    /** The head is routing: keep the wake-up as credit, spent on an idle waiter if there is one. */
    method BankWakeUp(model: string, ghost value: Value)
      requires Valid() && Busy(model) && models[model].ws[0].woken
      modifies this`models, this`gone
      ensures Valid() && OthersUnchanged(model) && View(model) == HandOver(old(View(model)), value).0
    {
      var line := models[model];
      ValidInv(model);
      AllAtHome(model);
      HandOverKeeps(p, View(model), value);
      var after, _ := SettleLine(Bank(line), None);
      RouseAtHome(line.ws, line.credit + 1, None, home, model);
      RouseLeft(line.ws, line.credit + 1, None);
      Store(model, after, gone);
    }

    /** The head is asleep: it leaves with the slot in its channel. */
    method HandToHead(model: string, value: Value)
      requires Valid() && Busy(model) && !models[model].ws[0].woken
      modifies this`models, this`gone
      ensures Valid() && OthersUnchanged(model) && View(model) == HandOver(old(View(model)), value).0
    {
      var line := models[model];
      ValidInv(model);
      AllAtHome(model);
      HandOverKeeps(p, View(model), value);
      Store(model, Unlink(line, 0), gone[line.ws[0].id := Some(AdmissionQueue.Handoff(value))]);
    }

    /** Wake up to `n` waiters at the head that are not already routing. */
    method WakeUp(model: string, n: int) returns (woken: nat)
      requires Valid()
      modifies this
      ensures Valid() && OthersUnchanged(model)
      ensures (View(model), woken) == Wake(old(View(model)), n)
    {
      if model !in models || n <= 0 { return 0; }
      woken := RouseModel(model, n);
    }

    method RouseModel(model: string, n: nat) returns (woken: nat)
      requires Valid() && model in models && n > 0
      modifies this`models, this`gone
      ensures Valid() && OthersUnchanged(model) && woken <= n && n - woken == Rouse(old(models[model]).ws, n, None).1
      ensures View(model) == State(old(models[model]).(ws := Rouse(old(models[model]).ws, n, None).0), old(gone), next,
          closed)
    {
      RousedFits(model, n);
      var line := models[model];
      var after;
      after, woken := RouseLine(line.ws, n);
      Store(model, line.(ws := after), gone);
    }

    lemma RousedFits(model: string, n: nat)
      requires Valid() && model in models && n > 0
      ensures var line := models[model]; var after := line.(ws := Rouse(line.ws, n, None).0);
              after.ws != [] && Inv(p, State(after, gone, next, false)) && AtHome(after.ws, home, model)
    {
      ValidInv(model);
      AllAtHome(model);
      WakeKeeps(p, View(model), n);
      RouseAtHome(models[model].ws, n, None, home, model);
      RouseLeft(models[model].ws, n, None);
    }

    /** Back to sleep, by a waiter that has read its Reroute. */
    method ParkWaiter(id: WaiterId) returns (routeAgain: bool)
      requires Valid() && id in home
      requires forall w :: w in LineOf(home[id]).ws && w.id == id ==> w.ch == None
      modifies this`models, this`gone
      ensures Valid() && OthersUnchanged(home[id])
      ensures (View(home[id]), routeAgain) == Park(old(View(home[id])), id)
    {
      var model := home[id];
      var line := LineOf(model);
      var k := Pos(line.ws, id);
      if k == |line.ws| { return false; }
      ValidInv(model);
      ParkKeeps(p, View(model), id);
      AllAtHome(model);
      ParkedAtHome(line, k, home, model);
      var after;
      after, routeAgain := ParkLine(line, k);
      Store(model, after, gone);
    }

    /** Leave (giving an unused wake-up back) and Done. */
    method LeaveQueue(id: WaiterId, giveBack: bool) returns (g: Option<Grant>)
      requires Valid() && id in home
      modifies this`models, this`gone
      ensures Valid() && OthersUnchanged(home[id])
      ensures (View(home[id]), g) == Leave(old(View(home[id])), id, giveBack)
    {
      var model := home[id];
      var line := LineOf(model);
      var k := Pos(line.ws, id);
      if k < |line.ws| {
        ValidInv(model);
        LeaveKeeps(p, View(model), id, giveBack);
        AllAtHome(model);
        DepartedAtHome(line, k, giveBack, home, model);
        var ch := line.ws[k].ch;
        var after := LeaveLine(p, line, k, giveBack);
        Store(model, after, gone[id := None]);
        return if ch.Some? && !ch.value.Reroute? then ch else None;
      }
      g := TakePending(id);
      g := if g.Some? && g.value.Handoff? then g else None;
    }

    /** Read the channel of a waiter that has left. */
    method TakePending(id: WaiterId) returns (g: Option<Grant>)
      requires Valid()
      modifies this`gone
      ensures Valid() && gone == if id in old(gone) then old(gone)[id := None] else old(gone)
      ensures g == if id in old(gone) then old(gone)[id] else None
    {
      if id !in gone { return None; }
      g := gone[id];
      gone := gone[id := None];
    }

    /** Tell every waiter of one model that the gateway is draining. */
    method FlushModel(model: string) returns (n: nat)
      requires Valid()
      modifies this`models, this`gone
      ensures Valid() && OthersUnchanged(model)
      ensures View(model) == Flush(old(View(model))) && n == |old(LineOf(model)).ws|
      ensures AllTold(old(LineOf(model)).ws, gone) && Keeps(old(gone), gone)
    {
      if model !in models { return 0; }
      var ws := models[model].ws;
      ValidInv(model);
      AllAtHome(model);
      TellTells(ws, gone);
      var away := FlushLine(ws, gone);
      FlushKeeps(p, View(model));
      Store(model, Nobody, away);
      return |ws|;
    }

    /** Flush of one model, or of every model when `model` is "". */
    method FlushAll(model: string) returns (n: nat)
      requires Valid()
      modifies this`models, this`gone
      ensures Valid() && Keeps(old(gone), gone)
      ensures forall m :: LineOf(m) == if model == "" || m == model then Nobody else old(LineOf(m))
      ensures forall m :: model == "" || m == model ==> AllTold(old(LineOf(m)).ws, gone)
      ensures n == FlushCount(old(models), model, old(models).Keys)
    {
      n := 0;
      ghost var before := models;
      var todo := models.Keys;
      while todo != {}
        invariant Valid() && Keeps(old(gone), gone)
        invariant forall m :: FlushedBy(before, model, todo, m, LineOf(m), gone)
        invariant n + FlushCount(before, model, todo) == FlushCount(before, model, before.Keys)
        decreases |todo|
      {
        var m :| m in todo;
        FlushCountAnyOrder(before, model, todo, m);
        var k := FlushIfNamed(before, model, todo, m);
        n, todo := n + k, todo - {m};
      }
    }

    /** One round of the flush. */
    method FlushIfNamed(ghost before: map<string, Line>, model: string, ghost todo: set<string>, m: string)
        returns (k: nat)
      requires Valid() && m in todo && forall x :: FlushedBy(before, model, todo, x, LineOf(x), gone)
      modifies this`models, this`gone
      ensures Valid() && Keeps(old(gone), gone)
      ensures forall x :: FlushedBy(before, model, todo - {m}, x, LineOf(x), gone)
      ensures k == Flushable(before, model, m)
    {
      k := 0;
      assert FlushedBy(before, model, todo, m, LineOf(m), gone);
      if model == "" || m == model { k := FlushModel(m); }
      forall x ensures FlushedBy(before, model, todo - {m}, x, LineOf(x), gone) {
        assert old(FlushedBy(before, model, todo, x, LineOf(x), gone));
        FlushStep(before, model, todo, m, x, old(LineOf(x)), LineOf(x), old(gone), gone);
      }
    }

    /** Waiters stay, and whoever comes from now on is refused. */
    method Close()
      requires Valid()
      modifies this`closed
      ensures Valid() && forall m, tenant :: Refusal(p, View(m), tenant, Room()) == Some(Draining)
      ensures forall m :: View(m) == old(View(m)).(closed := true)
    {
      closed := true;
    }
  }
}
