/** The key cache of the authenticator (internal/auth/authenticator.go): positive and negative cache, shared lookups
    with a bound, and stale answers within a grace period. Each locked section is one step, and so is each clock
    reading that is taken before its lock. */
module Auth {
  import opened Prelude
  import opened Lru

  /** A key's record and when a lookup stored it. */
  datatype Entry = Entry(rec: string, fetched: int)

  datatype Params = Params(ttl: int, negativeTtl: int, cacheSize: nat, grace: int, maxLookups: int)

  /** What New guarantees. */
  predicate Sane(p: Params) { p.ttl > 0 && p.negativeTtl > 0 && p.cacheSize > 0 && p.grace >= 0 && p.maxLookups >= 2 }

  function Reserve(p: Params): int { Max(1, p.maxLookups / 4) }

  /** What the store says. */
  datatype Lookup = Found(rec: string) | Missing | Unreadable | Busy | Down

  /** Where a served record came from. */
  datatype Way = FromCache | StaleCopy | FromLookup

  /** What a request is told. `asOf` is the clock reading that a served record was judged by. */
  datatype Answer = Served(entry: Entry, asOf: int, way: Way) | Unknown | BadRecord | Unavailable

  /** Where a request is. `asOf` is its own clock reading, and `backup` the copy past its time but within the grace
      period, if there is one. */
  datatype Req =
    | Arrived(prefix: string, asOf: int)
    | Pending(prefix: string, asOf: int, backup: Option<Entry>)
    | Waiting(prefix: string, asOf: int, backup: Option<Entry>)
    | Landed(prefix: string, asOf: int, backup: Option<Entry>, result: Answer)
    | Done(prefix: string, answer: Answer)

  /** The store's answer to a lookup and the clock reading taken after it. */
  datatype Landing = Landing(now: int, found: Lookup)

  /** The authenticator, the requests in it, the lookups that have an answer and wait for the lock, the last clock
      reading, everything that lookups have ever stored, and how each cache was used. */
  datatype State = State(pos: seq<Item<Entry>>, neg: seq<Item<int>>, flights: map<string, bool>, inflightRefresh: int,
      inflightNew: int,
                         downUntil: int, reqs: map<nat, Req>, landings: map<string, Landing>, clock: int,
                             stored: set<(string, Entry)>,
                         posLog: seq<Use>, negLog: seq<Use>)

  /** How long the store is left alone after a failed lookup, in nanoseconds. */
  const OUTAGE_BACKOFF := 1_000_000_000

  // ------------------------------------------------------------------ the caches

  datatype Cached = Fresh(entry: Entry) | FreshUnknown | Stale(entry: Entry) | Miss

  function PosVerdict(p: Params, pos: seq<Item<Entry>>, prefix: string, now: int): Cached {
    if !Holds(pos, prefix) then Miss
    else
      var e := Value(pos, prefix);
      if 0 <= now - e.fetched < p.ttl then Fresh(e) else if 0 <= now - e.fetched < p.ttl + p.grace then Stale(e)
          else Miss
  }

  function NegVerdict(p: Params, neg: seq<Item<int>>, prefix: string, now: int): Cached {
    if Holds(neg, prefix) && 0 <= now - Value(neg, prefix) < p.negativeTtl then FreshUnknown else Miss
  }

  function Verdict(p: Params, s: State, prefix: string, now: int): Cached {
    var v := PosVerdict(p, s.pos, prefix, now);
    if v.Miss? then NegVerdict(p, s.neg, prefix, now) else v
  }

  /** Looking moves what it finds to the front and drops what is too old. */
  function LookAt<V>(c: seq<Item<V>>, prefix: string, hit: bool): (seq<Item<V>>, seq<Use>) {
    if hit then (Touch(c, prefix), [Hit(prefix)])
        else (Remove(c, prefix), if Holds(c, prefix) then [Drop(prefix)] else [])
  }

  /** The negative cache is only looked at when the positive one has nothing. */
  function Look(p: Params, s: State, prefix: string, now: int): State {
    var v := PosVerdict(p, s.pos, prefix, now);
    var a := LookAt(s.pos, prefix, !v.Miss?);
    var b := if v.Miss? then LookAt(s.neg, prefix, NegVerdict(p, s.neg, prefix, now).FreshUnknown?) else (s.neg, []);
    s.(pos := a.0, neg := b.0, posLog := s.posLog + a.1, negLog := s.negLog + b.1)
  }

  /** A request that got no answer from the store falls back on its old copy. */
  function Fallback(backup: Option<Entry>, asOf: int): Answer {
    if backup.Some? then Served(backup.value, asOf, StaleCopy) else Unavailable
  }

  // ------------------------------------------------------------------ steps

  datatype Label =
    | Arrive(r: nat, prefix: string, now: int)
    | Begin(r: nat)
    | Fetch(r: nat, now: int)
    | Reply(prefix: string, now: int, found: Lookup)
    | Land(prefix: string)
    | Wake(r: nat)
    | GiveUp(r: nat)
    | Note(r: nat)

  /** The clock reading that a step takes. */
  function Reading(l: Label): Option<int> {
    match l
    case Arrive(_, _, now) => Some(now)
    case Fetch(_, now) => Some(now)
    case Reply(_, now, _) => Some(now)
    case _ => None
  }

  predicate Enabled(s: State, l: Label) {
    match l
    case Arrive(r, _, _) => r !in s.reqs
    case Begin(r) => r in s.reqs && s.reqs[r].Arrived?
    case Fetch(r, _) => r in s.reqs && s.reqs[r].Pending?
    case Reply(prefix, _, _) => prefix in s.flights && prefix !in s.landings
    case Land(prefix) => prefix in s.flights && prefix in s.landings
    case Wake(r) => r in s.reqs && s.reqs[r].Landed?
    case GiveUp(r) => r in s.reqs && (s.reqs[r].Waiting? || s.reqs[r].Landed?)
    case Note(r) => r in s.reqs && s.reqs[r].Done? && s.reqs[r].answer.Served?
  }

  /** The first look at the caches, with a clock reading that may be old by now. */
  function BeginStep(p: Params, s: State, r: nat): State
    requires r in s.reqs && s.reqs[r].Arrived?
  {
    var prefix, now := s.reqs[r].prefix, s.reqs[r].asOf;
    var req :=
      match Verdict(p, s, prefix, now)
      case Fresh(e) => Done(prefix, Served(e, now, FromCache))
      case FreshUnknown => Done(prefix, Unknown)
      case Stale(e) => if now < s.downUntil then Done(prefix, Fallback(Some(e), now)) else Pending(prefix, now, Some(e))
      case Miss => if now < s.downUntil then Done(prefix, Unavailable) else Pending(prefix, now, None);
    Look(p, s, prefix, now).(reqs := s.reqs[r := req])
  }

  predicate Full(p: Params, s: State, refresh: bool) {
    s.inflightRefresh + s.inflightNew >= p.maxLookups || (!refresh && s.inflightNew >= p.maxLookups - Reserve(p))
  }

  /** What becomes of a request that looks again: an answer, a lookup to wait for, or its own copy for want of either.
      */
  function Outcome(p: Params, s: State, q: Req, now: int): Req
    requires q.Pending?
  {
    var v, refresh := Verdict(p, s, q.prefix, now), q.backup.Some?;
    if v.Fresh? then Done(q.prefix, Served(v.entry, now, FromCache))
    else if v.FreshUnknown? then Done(q.prefix, Unknown)
    else if (if q.prefix in s.flights then refresh else Full(p, s, refresh))
        then Done(q.prefix, Fallback(q.backup, q.asOf))
    else Waiting(q.prefix, q.asOf, q.backup)
  }

  /** It starts a lookup of its own. */
  predicate Starts(p: Params, s: State, q: Req, now: int)
    requires q.Pending?
  {
    var v := Verdict(p, s, q.prefix, now);
    !v.Fresh? && !v.FreshUnknown? && q.prefix !in s.flights && !Full(p, s, q.backup.Some?)
  }

  /** Look again, then join a lookup, give up for want of capacity, or start one. */
  function FetchStep(p: Params, s: State, r: nat, now: int): State
    requires r in s.reqs && s.reqs[r].Pending?
  {
    var q := s.reqs[r];
    var starts, refresh := Starts(p, s, q, now), q.backup.Some?;
    Look(p, s, q.prefix, now).(
      clock := now, flights := if starts then s.flights[q.prefix := refresh] else s.flights,
      inflightRefresh := s.inflightRefresh + (if starts && refresh then 1 else 0),
      inflightNew := s.inflightNew + (if starts && !refresh then 1 else 0), reqs := s.reqs[r := Outcome(p, s, q, now)])
  }

  /** What those who wait for a lookup get, judged by their own clock reading. */
  function ResultFor(found: Lookup, now: int, asOf: int): Answer {
    match found
    case Found(rec) => Served(Entry(rec, now), asOf, FromLookup)
    case Missing => Unknown
    case Unreadable => BadRecord
    case _ => Unavailable
  }

  function Told(reqs: map<nat, Req>, prefix: string, found: Lookup, now: int): map<nat, Req> {
    map r | r in reqs ::
      if reqs[r].Waiting? && reqs[r].prefix == prefix
      then Landed(prefix, reqs[r].asOf, reqs[r].backup, ResultFor(found, now, reqs[r].asOf)) else reqs[r]
  }

  /** What a lookup's outcome does to the caches and the backoff. */
  function Absorb(p: Params, s: State, prefix: string, now: int, found: Lookup): State {
    match found
    case Found(rec) =>
      s.(pos := Put(Touch(s.pos, prefix), p.cacheSize, prefix, Entry(rec, now)), neg := Remove(s.neg, prefix),
          downUntil := 0,
         stored := s.stored + {(prefix, Entry(rec, now))}, posLog := s.posLog + [Hit(prefix)] + [Store(prefix)],
             negLog := s.negLog + [Drop(prefix)])
    case Missing => s.(pos := Remove(s.pos, prefix), neg := Put(s.neg, p.cacheSize, prefix, now), downUntil := 0,
                       posLog := s.posLog + [Drop(prefix)], negLog := s.negLog + [Store(prefix)])
    case Unreadable => s.(downUntil := 0)
    case Busy => s
    case Down => s.(downUntil := now + OUTAGE_BACKOFF)
  }

  /** The flight is over and those who wait for it are told. */
  function CloseUp(s: State, prefix: string, now: int, found: Lookup): State
    requires prefix in s.flights
  {
    var refresh := s.flights[prefix];
    s.(flights := s.flights - {prefix}, inflightRefresh := s.inflightRefresh - (if refresh then 1 else 0),
        landings := s.landings - {prefix},
       inflightNew := s.inflightNew - (if refresh then 0 else 1), reqs := Told(s.reqs, prefix, found, now))
  }

  /** A lookup ends, with the clock reading it took: the caches are updated and everyone waiting is told. */
  function LandStep(p: Params, s: State, prefix: string): State
    requires prefix in s.flights && prefix in s.landings
  {
    var l := s.landings[prefix];
    Absorb(p, CloseUp(s, prefix, l.now, l.found), prefix, l.now, l.found)
  }

  /** The use of a served key is noted at its entry, if it is still cached. */
  function NoteStep(s: State, prefix: string): State {
    s.(pos := Touch(s.pos, prefix), posLog := s.posLog + [Hit(prefix)])
  }

  function Next(p: Params, s: State, l: Label): State
    requires Enabled(s, l)
  {
    match l
    case Arrive(r, prefix, now) => s.(reqs := s.reqs[r := Arrived(prefix, now)], clock := now)
    case Begin(r) => BeginStep(p, s, r)
    case Fetch(r, now) => FetchStep(p, s, r, now)
    case Reply(prefix, now, found) => s.(landings := s.landings[prefix := Landing(now, found)], clock := now)
    case Land(prefix) => LandStep(p, s, prefix)
    case Wake(r) =>
      var q := s.reqs[r];
      s.(reqs := s.reqs[r := Done(q.prefix, if q.result.Unavailable? then Fallback(q.backup, q.asOf) else q.result)])
    case GiveUp(r) => s.(reqs := s.reqs[r := Done(s.reqs[r].prefix, Fallback(s.reqs[r].backup, s.reqs[r].asOf))])
    case Note(r) => NoteStep(s, s.reqs[r].prefix)
  }

  // ------------------------------------------------------------------ invariants

  /** Each cache is exactly what its uses leave of the most recently used keys, and no key is in both. */
  ghost predicate CachesOk(p: Params, s: State) {
    && Follows(s.pos, p.cacheSize, RefAfter(p.cacheSize, s.posLog))
        && Follows(s.neg, p.cacheSize, RefAfter(p.cacheSize, s.negLog))
    && forall k :: !(Holds(s.pos, k) && Holds(s.neg, k))
  }

  function Refreshes(flights: map<string, bool>): set<string> { set k | k in flights && flights[k] }

  function News(flights: map<string, bool>): set<string> { set k | k in flights && !flights[k] }

  ghost predicate FlightsOk(p: Params, s: State) {
    && s.inflightRefresh == |Refreshes(s.flights)| && s.inflightNew == |News(s.flights)|
    && s.inflightRefresh + s.inflightNew <= p.maxLookups && s.inflightNew <= p.maxLookups - Reserve(p)
    && s.landings.Keys <= s.flights.Keys
  }

  /** Every cached record was stored by a lookup. */
  ghost predicate EntriesOk(s: State) { forall k :: Holds(s.pos, k) ==> (k, Value(s.pos, k)) in s.stored }

  /** Every served record was stored by a lookup, and what came from the cache was within its time. */
  ghost predicate AnswerOk(p: Params, s: State, prefix: string, a: Answer) {
    a.Served? ==>
      && (prefix, a.entry) in s.stored
      && match a.way
         case FromCache => 0 <= a.asOf - a.entry.fetched < p.ttl
         case StaleCopy => 0 <= a.asOf - a.entry.fetched < p.ttl + p.grace
         case FromLookup => true
  }

  ghost predicate BackupOk(p: Params, s: State, prefix: string, asOf: int, backup: Option<Entry>) {
    backup.Some? ==> (prefix, backup.value) in s.stored && 0 <= asOf - backup.value.fetched < p.ttl + p.grace
  }

  ghost predicate ReqOk(p: Params, s: State, q: Req) {
    match q
    case Arrived(_, _) => true
    case Pending(prefix, asOf, backup) => BackupOk(p, s, prefix, asOf, backup)
    case Waiting(prefix, asOf, backup) => BackupOk(p, s, prefix, asOf, backup)
    case Landed(prefix, asOf, backup, result) =>
      BackupOk(p, s, prefix, asOf, backup) && AnswerOk(p, s, prefix, result)
          && (result.Served? ==> result.way == FromLookup)
    case Done(prefix, answer) => AnswerOk(p, s, prefix, answer)
  }

  ghost predicate ReqsOk(p: Params, s: State) { forall r :: r in s.reqs ==> ReqOk(p, s, s.reqs[r]) }

  ghost predicate Inv(p: Params, s: State) {
    Sane(p) && CachesOk(p, s) && FlightsOk(p, s) && EntriesOk(s) && ReqsOk(p, s)
  }

  // ------------------------------------------------------------------ looking

  /** Each cache after a look holds no more than before. */
  ghost predicate Within<V>(c: seq<Item<V>>, d: seq<Item<V>>) {
    forall k :: Holds(d, k) ==> Holds(c, k) && Value(d, k) == Value(c, k)
  }

  lemma FollowsIsDistinct<V>(c: seq<Item<V>>, max: nat, r: Ref)
    requires Follows(c, max, r)
    ensures Distinct(c) && |c| <= max
  {
    SamePlace(c, r.keys, "");
  }

  lemma TouchWithin<V>(c: seq<Item<V>>, key: string)
    requires Distinct(c)
    ensures Within(c, Touch(c, key))
  {
    TouchFacts(c, key);
  }

  lemma RemoveWithin<V>(c: seq<Item<V>>, key: string)
    requires Distinct(c)
    ensures Within(c, Remove(c, key))
  {
    RemoveFacts(c, key);
    forall k | Holds(Remove(c, key), k) ensures Holds(c, k) && Value(Remove(c, key), k) == Value(c, k) {
      assert k != key;
    }
  }

  /** A cache is looked at: a hit, a removal of what is too old, or nothing. */
  lemma LookedAt<V>(c: seq<Item<V>>, max: nat, log: seq<Use>, key: string, hit: bool)
    requires Follows(c, max, RefAfter(max, log)) && (hit ==> Holds(c, key))
    ensures Within(c, LookAt(c, key, hit).0)
        && Follows(LookAt(c, key, hit).0, max, RefAfter(max, log + LookAt(c, key, hit).1))
  {
    FollowsIsDistinct(c, max, RefAfter(max, log));
    if hit {
      TouchWithin(c, key);
      HitFollows(c, max, RefAfter(max, log), key);
      RefOneMore(max, log, Hit(key));
    } else if Holds(c, key) {
      RemoveWithin(c, key);
      DropFollows(c, max, RefAfter(max, log), key);
      RefOneMore(max, log, Drop(key));
    } else {
      assert log + [] == log;
    }
  }

  lemma LookOk(p: Params, s: State, prefix: string, now: int)
    requires CachesOk(p, s) && EntriesOk(s)
    ensures CachesOk(p, Look(p, s, prefix, now)) && EntriesOk(Look(p, s, prefix, now))
  {
    var v := PosVerdict(p, s.pos, prefix, now);
    LookedAt(s.pos, p.cacheSize, s.posLog, prefix, !v.Miss?);
    if v.Miss? {
      LookedAt(s.neg, p.cacheSize, s.negLog, prefix, NegVerdict(p, s.neg, prefix, now).FreshUnknown?);
    } else {
      assert s.negLog + [] == s.negLog;
    }
  }

  lemma SameCaches(p: Params, s: State, t: State)
    requires CachesOk(p, s) && EntriesOk(s) && t.pos == s.pos && t.neg == s.neg && t.posLog == s.posLog
        && t.negLog == s.negLog && t.stored == s.stored
    ensures CachesOk(p, t) && EntriesOk(t)
  {
  }

  lemma VerdictOk(p: Params, s: State, prefix: string, now: int)
    requires EntriesOk(s)
    ensures var v := Verdict(p, s, prefix, now);
            && (v.Fresh? ==> (prefix, v.entry) in s.stored && 0 <= now - v.entry.fetched < p.ttl)
            && (v.Stale? ==> (prefix, v.entry) in s.stored && 0 <= now - v.entry.fetched < p.ttl + p.grace)
  {
  }

  lemma OneReq(p: Params, s: State, t: State, r: nat, q: Req)
    requires ReqsOk(p, s) && s.stored <= t.stored && t.reqs == s.reqs[r := q] && ReqOk(p, t, q)
    ensures ReqsOk(p, t)
  {
    forall x | x in t.reqs ensures ReqOk(p, t, t.reqs[x]) { if x != r { assert ReqOk(p, s, s.reqs[x]); } }
  }

  lemma BeginInv(p: Params, s: State, r: nat)
    requires Inv(p, s) && r in s.reqs && s.reqs[r].Arrived?
    ensures Inv(p, BeginStep(p, s, r))
  {
    var t := BeginStep(p, s, r);
    LookOk(p, s, s.reqs[r].prefix, s.reqs[r].asOf);
    VerdictOk(p, s, s.reqs[r].prefix, s.reqs[r].asOf);
    OneReq(p, s, t, r, t.reqs[r]);
  }

  // ------------------------------------------------------------------ lookups

  lemma StartFlight(p: Params, s: State, prefix: string, refresh: bool)
    requires FlightsOk(p, s) && prefix !in s.flights
    ensures var f := s.flights[prefix := refresh];
            && |Refreshes(f)| == |Refreshes(s.flights)| + (if refresh then 1 else 0)
            && |News(f)| == |News(s.flights)| + if refresh then 0 else 1
  {
    var f := s.flights[prefix := refresh];
    if refresh {
      assert Refreshes(f) == Refreshes(s.flights) + {prefix};
      assert News(f) == News(s.flights);
    } else {
      assert News(f) == News(s.flights) + {prefix};
      assert Refreshes(f) == Refreshes(s.flights);
    }
  }

  lemma EndFlight(flights: map<string, bool>, prefix: string)
    requires prefix in flights
    ensures |Refreshes(flights - {prefix})| == |Refreshes(flights)| - (if flights[prefix] then 1 else 0)
    ensures |News(flights - {prefix})| == |News(flights)| - if flights[prefix] then 0 else 1
  {
    if flights[prefix] {
      assert Refreshes(flights) == Refreshes(flights - {prefix}) + {prefix};
      assert News(flights - {prefix}) == News(flights);
    } else {
      assert News(flights) == News(flights - {prefix}) + {prefix};
      assert Refreshes(flights - {prefix}) == Refreshes(flights);
    }
  }

  lemma FetchFlights(p: Params, s: State, r: nat, now: int)
    requires FlightsOk(p, s) && r in s.reqs && s.reqs[r].Pending?
    ensures FlightsOk(p, FetchStep(p, s, r, now))
  {
    var q := s.reqs[r];
    if q.prefix !in s.flights { StartFlight(p, s, q.prefix, q.backup.Some?); }
  }

  lemma FetchReq(p: Params, s: State, r: nat, now: int)
    requires Sane(p) && EntriesOk(s) && ReqsOk(p, s) && r in s.reqs && s.reqs[r].Pending?
    ensures ReqOk(p, FetchStep(p, s, r, now), FetchStep(p, s, r, now).reqs[r])
  {
    assert ReqOk(p, s, s.reqs[r]);
    VerdictOk(p, s, s.reqs[r].prefix, now);
  }

  /** Fetching changes the caches as a look does, and one request. */
  lemma FetchShape(p: Params, s: State, r: nat, now: int)
    requires r in s.reqs && s.reqs[r].Pending?
    ensures var t, u := FetchStep(p, s, r, now), Look(p, s, s.reqs[r].prefix, now);
            && t.pos == u.pos && t.neg == u.neg && t.posLog == u.posLog && t.negLog == u.negLog && t.stored == s.stored
            && t.landings == s.landings && t.clock == now && r in t.reqs && t.reqs == s.reqs[r := t.reqs[r]]
  {
  }

  lemma FetchInv(p: Params, s: State, r: nat, now: int)
    requires Inv(p, s) && r in s.reqs && s.reqs[r].Pending?
    ensures Inv(p, FetchStep(p, s, r, now))
  {
    var t := FetchStep(p, s, r, now);
    FetchShape(p, s, r, now);
    LookOk(p, s, s.reqs[r].prefix, now);
    SameCaches(p, Look(p, s, s.reqs[r].prefix, now), t);
    FetchFlights(p, s, r, now);
    FetchReq(p, s, r, now);
    OneReq(p, s, t, r, t.reqs[r]);
  }

  lemma FoundCaches(p: Params, s: State, prefix: string, now: int, rec: string)
    requires Sane(p) && CachesOk(p, s) && EntriesOk(s)
    ensures CachesOk(p, Absorb(p, s, prefix, now, Found(rec))) && EntriesOk(Absorb(p, s, prefix, now, Found(rec)))
  {
    var max, e := p.cacheSize, Entry(rec, now);
    FollowsIsDistinct(s.pos, max, RefAfter(max, s.posLog));
    FollowsIsDistinct(s.neg, max, RefAfter(max, s.negLog));
    TouchFacts(s.pos, prefix);
    PutFacts(Touch(s.pos, prefix), max, prefix, e);
    RemoveFacts(s.neg, prefix);
    HitFollows(s.pos, max, RefAfter(max, s.posLog), prefix);
    RefOneMore(max, s.posLog, Hit(prefix));
    StoreFollows(Touch(s.pos, prefix), max, RefAfter(max, s.posLog + [Hit(prefix)]), prefix, e);
    RefOneMore(max, s.posLog + [Hit(prefix)], Store(prefix));
    DropFollows(s.neg, max, RefAfter(max, s.negLog), prefix);
    RefOneMore(max, s.negLog, Drop(prefix));
  }

  lemma MissingCaches(p: Params, s: State, prefix: string, now: int)
    requires Sane(p) && CachesOk(p, s) && EntriesOk(s)
    ensures CachesOk(p, Absorb(p, s, prefix, now, Missing)) && EntriesOk(Absorb(p, s, prefix, now, Missing))
  {
    var max := p.cacheSize;
    FollowsIsDistinct(s.pos, max, RefAfter(max, s.posLog));
    FollowsIsDistinct(s.neg, max, RefAfter(max, s.negLog));
    RemoveFacts(s.pos, prefix);
    PutFacts(s.neg, max, prefix, now);
    DropFollows(s.pos, max, RefAfter(max, s.posLog), prefix);
    RefOneMore(max, s.posLog, Drop(prefix));
    StoreFollows(s.neg, max, RefAfter(max, s.negLog), prefix, now);
    RefOneMore(max, s.negLog, Store(prefix));
  }

  lemma LandCaches(p: Params, s: State, prefix: string)
    requires Sane(p) && CachesOk(p, s) && EntriesOk(s) && prefix in s.flights && prefix in s.landings
    ensures CachesOk(p, LandStep(p, s, prefix)) && EntriesOk(LandStep(p, s, prefix))
  {
    var l := s.landings[prefix];
    var t := CloseUp(s, prefix, l.now, l.found);
    SameCaches(p, s, t);
    AbsorbCaches(p, t, prefix, l.now, l.found);
  }

  lemma AbsorbCaches(p: Params, s: State, prefix: string, now: int, found: Lookup)
    requires Sane(p) && CachesOk(p, s) && EntriesOk(s)
    ensures CachesOk(p, Absorb(p, s, prefix, now, found)) && EntriesOk(Absorb(p, s, prefix, now, found))
  {
    if found.Found? { FoundCaches(p, s, prefix, now, found.rec); }
    else if found.Missing? { MissingCaches(p, s, prefix, now); }
    else { SameCaches(p, s, Absorb(p, s, prefix, now, found)); }
  }

  lemma LandReqs(p: Params, s: State, prefix: string)
    requires Sane(p) && ReqsOk(p, s) && prefix in s.flights && prefix in s.landings
    ensures ReqsOk(p, LandStep(p, s, prefix))
  {
    var t := LandStep(p, s, prefix);
    forall r | r in t.reqs ensures ReqOk(p, t, t.reqs[r]) { LandReq(p, s, prefix, r); }
  }

  lemma LandReq(p: Params, s: State, prefix: string, r: nat)
    requires Sane(p) && ReqsOk(p, s) && prefix in s.flights && prefix in s.landings && r in s.reqs
    ensures r in LandStep(p, s, prefix).reqs && ReqOk(p, LandStep(p, s, prefix), LandStep(p, s, prefix).reqs[r])
  {
    var l := s.landings[prefix];
    assert ReqOk(p, s, s.reqs[r]);
    LandStored(p, s, prefix);
    if s.reqs[r].Waiting? && s.reqs[r].prefix == prefix {
      assert l.found.Found? ==> (prefix, Entry(l.found.rec, l.now)) in LandStep(p, s, prefix).stored;
    }
  }

  lemma LandStored(p: Params, s: State, prefix: string)
    requires prefix in s.flights && prefix in s.landings
    ensures var t, l := LandStep(p, s, prefix), s.landings[prefix];
            && t.reqs == Told(s.reqs, prefix, l.found, l.now)
            && t.stored == if l.found.Found? then s.stored + {(prefix, Entry(l.found.rec, l.now))} else s.stored
  {
  }

  lemma LandFlights(p: Params, s: State, prefix: string)
    requires FlightsOk(p, s) && prefix in s.flights && prefix in s.landings
    ensures FlightsOk(p, LandStep(p, s, prefix))
  {
    EndFlight(s.flights, prefix);
    var t := LandStep(p, s, prefix);
    assert t.flights == s.flights - {prefix} && t.landings == s.landings - {prefix};
  }

  lemma LandInv(p: Params, s: State, prefix: string)
    requires Inv(p, s) && prefix in s.flights && prefix in s.landings
    ensures Inv(p, LandStep(p, s, prefix))
  {
    LandCaches(p, s, prefix);
    LandFlights(p, s, prefix);
    LandReqs(p, s, prefix);
  }

  lemma NoteInv(p: Params, s: State, prefix: string)
    requires Inv(p, s)
    ensures Inv(p, NoteStep(s, prefix))
  {
    var max := p.cacheSize;
    FollowsIsDistinct(s.pos, max, RefAfter(max, s.posLog));
    TouchWithin(s.pos, prefix);
    HitFollows(s.pos, max, RefAfter(max, s.posLog), prefix);
    RefOneMore(max, s.posLog, Hit(prefix));
    ReqsStay(p, s, NoteStep(s, prefix));
  }

  lemma NextInv(p: Params, s: State, l: Label)
    requires Inv(p, s) && Enabled(s, l)
    ensures Inv(p, Next(p, s, l))
  {
    match l
    case Arrive(r, _, _) => OneReq(p, s, Next(p, s, l), r, Next(p, s, l).reqs[r]);
    case Begin(r) => BeginInv(p, s, r);
    case Fetch(r, now) => FetchInv(p, s, r, now);
    case Reply(_, _, _) => ReqsStay(p, s, Next(p, s, l));
    case Land(prefix) => LandInv(p, s, prefix);
    case Wake(r) => assert ReqOk(p, s, s.reqs[r]); OneReq(p, s, Next(p, s, l), r, Next(p, s, l).reqs[r]);
    case GiveUp(r) => assert ReqOk(p, s, s.reqs[r]); OneReq(p, s, Next(p, s, l), r, Next(p, s, l).reqs[r]);
    case Note(r) => NoteInv(p, s, s.reqs[r].prefix);
  }

  lemma ReqsStay(p: Params, s: State, t: State)
    requires ReqsOk(p, s) && t.reqs == s.reqs && t.stored == s.stored
    ensures ReqsOk(p, t)
  {
    forall r | r in t.reqs ensures ReqOk(p, t, t.reqs[r]) { assert ReqOk(p, s, s.reqs[r]); }
  }

  // ------------------------------------------------------------------ every run

  const Start: State := State([], [], map[], 0, 0, 0, map[], map[], 0, {}, [], [])

  ghost predicate Run(p: Params, labels: seq<Label>, states: seq<State>) {
    |states| == |labels| + 1 && states[0] == Start && forall i :: 0 <= i < |labels| ==> StepsTo(p, labels, states, i)
  }

  ghost predicate StepsTo(p: Params, labels: seq<Label>, states: seq<State>, i: nat) {
    i < |labels| && i + 1 < |states| && Enabled(states[i], labels[i]) && states[i + 1] == Next(p, states[i], labels[i])
  }

  lemma StartInv(p: Params)
    requires Sane(p)
    ensures Inv(p, Start)
  {
    assert Refreshes(map[]) == {} && News(map[]) == {};
  }

  lemma {:induction false} RunInv(p: Params, labels: seq<Label>, states: seq<State>, n: nat)
    requires Sane(p) && Run(p, labels, states) && n < |states|
    ensures Inv(p, states[n])
  {
    if n == 0 {
      StartInv(p);
    } else {
      RunInv(p, labels, states, n - 1);
      InvAt(p, labels, states, n);
    }
  }

  lemma InvAt(p: Params, labels: seq<Label>, states: seq<State>, n: nat)
    requires Run(p, labels, states) && 0 < n < |states| && Inv(p, states[n - 1])
    ensures Inv(p, states[n])
  {
    assert StepsTo(p, labels, states, n - 1);
    NextInv(p, states[n - 1], labels[n - 1]);
  }

  lemma FlightCount(flights: map<string, bool>)
    ensures |flights| == |Refreshes(flights)| + |News(flights)|
  {
    assert flights.Keys == Refreshes(flights) + News(flights);
  }

  /** In every run and under any clock: a record served from the cache was stored by a lookup less than the lifetime
      before the clock reading it was judged by, or, as a stale copy, less than the lifetime and the grace period
      together; no prefix is in both caches; each cache is exactly what its uses leave of the most recently used keys;
      and lookups in flight are counted exactly and stay within their bounds. */
  lemma StalenessIsBounded(p: Params, labels: seq<Label>, states: seq<State>, n: nat)
    requires Sane(p) && Run(p, labels, states) && n < |states|
    ensures var s := states[n];
            && (forall r :: r in s.reqs && s.reqs[r].Done? ==> AnswerOk(p, s, s.reqs[r].prefix, s.reqs[r].answer))
            && (forall k :: !(Holds(s.pos, k) && Holds(s.neg, k)))
            && Follows(s.pos, p.cacheSize, RefAfter(p.cacheSize, s.posLog))
                && Follows(s.neg, p.cacheSize, RefAfter(p.cacheSize, s.negLog))
            && |s.flights| == s.inflightRefresh + s.inflightNew <= p.maxLookups
                && s.inflightNew <= p.maxLookups - Reserve(p)
  {
    var s := states[n];
    RunInv(p, labels, states, n);
    FlightCount(s.flights);
    forall r | r in s.reqs && s.reqs[r].Done? ensures AnswerOk(p, s, s.reqs[r].prefix, s.reqs[r].answer) {
      assert ReqOk(p, s, s.reqs[r]);
    }
  }

  /** A flood of new keys leaves room for a refresh: the reserved lookups are never used up by prefixes that are not
      cached. */
  lemma RefreshHasRoom(p: Params, s: State)
    requires Inv(p, s) && s.inflightRefresh < Reserve(p)
    ensures !Full(p, s, true)
  {
  }

  // ------------------------------------------------------------------ stale copies

  predicate ServesStale(q: Req) { q.Done? && q.answer.Served? && q.answer.way == StaleCopy }

  /** What keeps a request from a fresh answer: the store failed moments ago, someone else is refreshing or there is no
      capacity, the lookup failed, or the request stopped waiting. */
  predicate Trouble(p: Params, s: State, l: Label, r: nat) {
    match l
    case Begin(x) => x == r && r in s.reqs && s.reqs[r].Arrived? && s.reqs[r].asOf < s.downUntil
    case Fetch(x, _) => x == r && r in s.reqs && (s.reqs[r].prefix in s.flights || Full(p, s, true))
    case Wake(x) => x == r && r in s.reqs && s.reqs[r].Landed? && s.reqs[r].result.Unavailable?
    case GiveUp(x) => x == r
    case _ => false
  }

  lemma StaleFetch(p: Params, s: State, r: nat, now: int)
    requires r in s.reqs && s.reqs[r].Pending? && ServesStale(FetchStep(p, s, r, now).reqs[r])
    ensures s.reqs[r].prefix in s.flights || Full(p, s, true)
  {
  }

  /** The step that gives a request a copy past its time is trouble of its own. */
  lemma StaleOnlyInTrouble(p: Params, s: State, l: Label, r: nat)
    requires ReqsOk(p, s) && Enabled(s, l) && r in Next(p, s, l).reqs && ServesStale(Next(p, s, l).reqs[r])
    ensures (r in s.reqs && s.reqs[r] == Next(p, s, l).reqs[r]) || Trouble(p, s, l, r)
  {
    if l.Land? { LandStale(p, s, l.prefix, r); }
    else if l.Fetch? { FetchShape(p, s, l.r, l.now); if l.r == r { StaleFetch(p, s, r, l.now); } }
    else if !l.Reply? && !l.Note? && l.r == r { OwnStale(p, s, l); }
  }

  lemma OwnStale(p: Params, s: State, l: Label)
    requires ReqsOk(p, s) && Enabled(s, l) && (l.Arrive? || l.Begin? || l.Wake? || l.GiveUp?)
    requires l.r in Next(p, s, l).reqs && ServesStale(Next(p, s, l).reqs[l.r])
    ensures Trouble(p, s, l, l.r)
  {
    assert l.r in s.reqs ==> ReqOk(p, s, s.reqs[l.r]);
  }

  lemma LandStale(p: Params, s: State, prefix: string, r: nat)
    requires prefix in s.flights && prefix in s.landings && r in LandStep(p, s, prefix).reqs
        && ServesStale(LandStep(p, s, prefix).reqs[r])
    ensures r in s.reqs && s.reqs[r] == LandStep(p, s, prefix).reqs[r]
  {
  }

  /** In every run, every request that is answered with a copy past its time was given it by a step that could not ask
      the store, or did not get its answer. */
  lemma {:induction false} EveryStaleAnswerHadTrouble(p: Params, labels: seq<Label>, states: seq<State>, n: nat, r: nat)
    requires Sane(p) && Run(p, labels, states) && n < |states| && r in states[n].reqs && ServesStale(states[n].reqs[r])
    ensures exists i :: 0 <= i < n && Trouble(p, states[i], labels[i], r) && r in states[i + 1].reqs
                        && states[i + 1].reqs[r] == states[n].reqs[r]
  {
    assert StepsTo(p, labels, states, n - 1);
    RunInv(p, labels, states, n - 1);
    StaleOnlyInTrouble(p, states[n - 1], labels[n - 1], r);
    if !Trouble(p, states[n - 1], labels[n - 1], r) {
      EveryStaleAnswerHadTrouble(p, labels, states, n - 1, r);
    }
  }

  // ------------------------------------------------------------------ joined lookups

  /** The clock does not go back at this step. */
  predicate Forward(s: State, l: Label) { Reading(l).Some? ==> Reading(l).value >= s.clock }

  /** A waiting request reads no later than the lifetime after the answer that its lookup already has. */
  predicate OnTime(p: Params, s: State, q: Req) {
    q.Waiting? && q.prefix in s.landings && s.landings[q.prefix].found.Found? ==>
      q.asOf - s.landings[q.prefix].now < p.ttl
  }

  ghost predicate Timely(p: Params, s: State) { forall r :: r in s.reqs ==> OnTime(p, s, s.reqs[r]) }

  /** Nobody has read the clock ahead of it. */
  ghost predicate ReadBy(s: State) { forall r :: r in s.reqs ==> s.reqs[r].Done? || s.reqs[r].asOf <= s.clock }

  /** A request joins a lookup that has its answer, read the lifetime or more before the request, and only waits for
      the lock. */
  predicate LateJoin(p: Params, s: State, l: Label) {
    && l.Fetch? && l.r in s.reqs && s.reqs[l.r].Pending? && s.reqs[l.r].backup.None?
    && var q := s.reqs[l.r]; var v := Verdict(p, s, q.prefix, l.now);
    && !v.Fresh? && !v.FreshUnknown? && q.prefix in s.flights
    && q.prefix in s.landings && s.landings[q.prefix].found.Found? && q.asOf - s.landings[q.prefix].now >= p.ttl
  }

  lemma FetchOnTime(p: Params, s: State, r: nat, now: int)
    requires FlightsOk(p, s) && r in s.reqs && s.reqs[r].Pending? && r in FetchStep(p, s, r, now).reqs
    ensures OnTime(p, s, FetchStep(p, s, r, now).reqs[r]) <==> !LateJoin(p, s, Fetch(r, now))
  {
  }

  lemma FetchTimely(p: Params, s: State, r: nat, now: int)
    requires FlightsOk(p, s) && Timely(p, s) && r in s.reqs && s.reqs[r].Pending?
    ensures Timely(p, FetchStep(p, s, r, now)) <==> !LateJoin(p, s, Fetch(r, now))
  {
    FetchShape(p, s, r, now);
    FetchOnTime(p, s, r, now);
    OneTimely(p, s, FetchStep(p, s, r, now), r);
  }

  /** When one request changes, it alone decides. */
  lemma OneTimely(p: Params, s: State, t: State, r: nat)
    requires Timely(p, s) && t.landings == s.landings && r in t.reqs && t.reqs == s.reqs[r := t.reqs[r]]
    ensures Timely(p, t) <==> OnTime(p, s, t.reqs[r])
  {
    forall x | x in t.reqs && x != r ensures OnTime(p, t, t.reqs[x]) { assert OnTime(p, s, s.reqs[x]); }
    assert OnTime(p, t, t.reqs[r]) == OnTime(p, s, t.reqs[r]);
  }

  lemma ReplyTimely(p: Params, s: State, prefix: string, now: int, found: Lookup)
    requires Sane(p) && ReadBy(s) && Timely(p, s) && now >= s.clock
    ensures Timely(p, s.(landings := s.landings[prefix := Landing(now, found)], clock := now))
  {
    var t := s.(landings := s.landings[prefix := Landing(now, found)], clock := now);
    forall x | x in t.reqs ensures OnTime(p, t, t.reqs[x]) { assert OnTime(p, s, s.reqs[x]); }
  }

  lemma LandTimely(p: Params, s: State, prefix: string)
    requires Timely(p, s) && prefix in s.flights && prefix in s.landings
    ensures Timely(p, LandStep(p, s, prefix))
  {
    var t := LandStep(p, s, prefix);
    forall x | x in t.reqs ensures OnTime(p, t, t.reqs[x]) { assert OnTime(p, s, s.reqs[x]); }
  }

  lemma OtherTimely(p: Params, s: State, l: Label)
    requires Timely(p, s) && Enabled(s, l) && (l.Arrive? || l.Begin? || l.Wake? || l.GiveUp?)
    ensures Timely(p, Next(p, s, l))
  {
    var t := Next(p, s, l);
    assert t.landings == s.landings && t.reqs == s.reqs[l.r := t.reqs[l.r]] && !t.reqs[l.r].Waiting?;
    forall x | x in t.reqs ensures OnTime(p, t, t.reqs[x]) { if x != l.r { assert OnTime(p, s, s.reqs[x]); } }
  }

  lemma NoteTimely(p: Params, s: State, prefix: string)
    requires Timely(p, s)
    ensures Timely(p, NoteStep(s, prefix))
  {
    var t := NoteStep(s, prefix);
    forall x | x in t.reqs ensures OnTime(p, t, t.reqs[x]) { assert OnTime(p, s, s.reqs[x]); }
  }

  /** A step on a clock that does not go back keeps every waiting request on time if and only if it is no late join. */
  lemma NextTimely(p: Params, s: State, l: Label)
    requires Inv(p, s) && ReadBy(s) && Timely(p, s) && Enabled(s, l) && Forward(s, l)
    ensures Timely(p, Next(p, s, l)) <==> !LateJoin(p, s, l)
  {
    if l.Fetch? { FetchTimely(p, s, l.r, l.now); }
    else if l.Reply? { ReplyTimely(p, s, l.prefix, l.now, l.found); }
    else if l.Land? { LandTimely(p, s, l.prefix); }
    else if l.Note? { NoteTimely(p, s, s.reqs[l.r].prefix); }
    else { OtherTimely(p, s, l); }
  }

  lemma OneReadBy(s: State, t: State, r: nat)
    requires ReadBy(s) && t.clock >= s.clock && r in t.reqs && t.reqs == s.reqs[r := t.reqs[r]]
    requires t.reqs[r].Done? || t.reqs[r].asOf <= t.clock
    ensures ReadBy(t)
  {
  }

  lemma LandReadBy(p: Params, s: State, prefix: string)
    requires ReadBy(s) && prefix in s.flights && prefix in s.landings
    ensures ReadBy(LandStep(p, s, prefix))
  {
    var t := LandStep(p, s, prefix);
    forall r | r in t.reqs ensures t.reqs[r].Done? || t.reqs[r].asOf <= t.clock {
      assert s.reqs[r].Done? || s.reqs[r].asOf <= s.clock;
    }
  }

  lemma FetchReadBy(p: Params, s: State, r: nat, now: int)
    requires ReadBy(s) && r in s.reqs && s.reqs[r].Pending? && now >= s.clock
    ensures ReadBy(FetchStep(p, s, r, now))
  {
    FetchShape(p, s, r, now);
    OneReadBy(s, FetchStep(p, s, r, now), r);
  }

  lemma NextReadBy(p: Params, s: State, l: Label)
    requires ReadBy(s) && Enabled(s, l) && Forward(s, l)
    ensures ReadBy(Next(p, s, l))
  {
    if l.Land? { LandReadBy(p, s, l.prefix); }
    else if l.Fetch? { FetchReadBy(p, s, l.r, l.now); }
    else if !l.Reply? && !l.Note? { OneReadBy(s, Next(p, s, l), l.r); }
  }

  /** A run on a clock that does not go back. */
  ghost predicate ForwardRun(p: Params, labels: seq<Label>, states: seq<State>) {
    Run(p, labels, states) && forall i :: 0 <= i < |labels| ==> Forward(states[i], labels[i])
  }

  lemma {:induction false} RunReadBy(p: Params, labels: seq<Label>, states: seq<State>, n: nat)
    requires ForwardRun(p, labels, states) && n < |states|
    ensures ReadBy(states[n])
  {
    if n > 0 {
      RunReadBy(p, labels, states, n - 1);
      assert StepsTo(p, labels, states, n - 1);
      NextReadBy(p, states[n - 1], labels[n - 1]);
    }
  }

  lemma TimelyAt(p: Params, labels: seq<Label>, states: seq<State>, n: nat)
    requires Sane(p) && ForwardRun(p, labels, states) && n < |labels| && Timely(p, states[n])
    ensures Timely(p, states[n + 1]) <==> !LateJoin(p, states[n], labels[n])
  {
    RunInv(p, labels, states, n);
    RunReadBy(p, labels, states, n);
    assert StepsTo(p, labels, states, n);
    NextTimely(p, states[n], labels[n]);
  }

  lemma {:induction false} TimelySoFar(p: Params, labels: seq<Label>, states: seq<State>, n: nat)
    requires Sane(p) && ForwardRun(p, labels, states) && n < |states|
    requires forall i :: 0 <= i < n ==> !LateJoin(p, states[i], labels[i])
    ensures Timely(p, states[n])
  {
    if n > 0 {
      TimelySoFar(p, labels, states, n - 1);
      TimelyAt(p, labels, states, n - 1);
    }
  }

  /** In every run on a clock that does not go back, every waiting request is always on time if and only if nobody
      joins a lookup late. */
  lemma TimelyUnlessJoinedLate(p: Params, labels: seq<Label>, states: seq<State>)
    requires Sane(p) && ForwardRun(p, labels, states)
    ensures (forall i :: 0 <= i < |states| ==> Timely(p, states[i]))
        <==> (forall i :: 0 <= i < |labels| ==> !LateJoin(p, states[i], labels[i]))
  {
    if forall i :: 0 <= i < |labels| ==> !LateJoin(p, states[i], labels[i]) {
      forall i | 0 <= i < |states| ensures Timely(p, states[i]) { TimelySoFar(p, labels, states, i); }
    } else {
      var i :| 0 <= i < |labels| && LateJoin(p, states[i], labels[i]);
      if Timely(p, states[i]) { TimelyAt(p, labels, states, i); }
      assert !Timely(p, states[i]) || !Timely(p, states[i + 1]);
    }
  }

  /** A record from a lookup was stored less than the lifetime before the request's reading. */
  predicate LookedUpInTime(p: Params, a: Answer) {
    a.Served? && a.way == FromLookup ==> a.asOf - a.entry.fetched < p.ttl
  }

  predicate ReqInTime(p: Params, q: Req) {
    (q.Done? ==> LookedUpInTime(p, q.answer)) && (q.Landed? ==> LookedUpInTime(p, q.result))
  }

  ghost predicate AnswersInTime(p: Params, s: State) { forall r :: r in s.reqs ==> ReqInTime(p, s.reqs[r]) }

  lemma NextInTime(p: Params, s: State, l: Label)
    requires AnswersInTime(p, s) && Timely(p, s) && Enabled(s, l)
    ensures AnswersInTime(p, Next(p, s, l))
  {
    if l.Land? { LandInTime(p, s, l.prefix); }
    else if l.Fetch? { FetchShape(p, s, l.r, l.now); OneInTime(p, s, Next(p, s, l), l.r); }
    else if !l.Reply? && !l.Note? { OwnInTime(p, s, l); OneInTime(p, s, Next(p, s, l), l.r); }
  }

  lemma OneInTime(p: Params, s: State, t: State, r: nat)
    requires AnswersInTime(p, s) && r in t.reqs && t.reqs == s.reqs[r := t.reqs[r]] && ReqInTime(p, t.reqs[r])
    ensures AnswersInTime(p, t)
  {
  }

  lemma OwnInTime(p: Params, s: State, l: Label)
    requires AnswersInTime(p, s) && Enabled(s, l) && (l.Arrive? || l.Begin? || l.Wake? || l.GiveUp?)
    ensures l.r in Next(p, s, l).reqs && Next(p, s, l).reqs == s.reqs[l.r := Next(p, s, l).reqs[l.r]]
        && ReqInTime(p, Next(p, s, l).reqs[l.r])
  {
    assert l.r in s.reqs ==> ReqInTime(p, s.reqs[l.r]);
  }

  lemma LandInTime(p: Params, s: State, prefix: string)
    requires AnswersInTime(p, s) && Timely(p, s) && prefix in s.flights && prefix in s.landings
    ensures AnswersInTime(p, LandStep(p, s, prefix))
  {
    var t := LandStep(p, s, prefix);
    forall r | r in t.reqs ensures ReqInTime(p, t.reqs[r]) {
      assert ReqInTime(p, s.reqs[r]) && OnTime(p, s, s.reqs[r]);
    }
  }

  /** In every such run without a late join, a record from a lookup is as fresh as one from the cache. */
  lemma {:induction false} JoinedLookupsAreFresh(p: Params, labels: seq<Label>, states: seq<State>, n: nat)
    requires Sane(p) && ForwardRun(p, labels, states) && n < |states|
    requires forall i :: 0 <= i < n ==> !LateJoin(p, states[i], labels[i])
    ensures AnswersInTime(p, states[n])
  {
    if n > 0 {
      JoinedLookupsAreFresh(p, labels, states, n - 1);
      TimelySoFar(p, labels, states, n - 1);
      assert StepsTo(p, labels, states, n - 1);
      NextInTime(p, states[n - 1], labels[n - 1]);
    }
  }

  /** And one that has joined late is handed a record past its lifetime when the lookup gets the lock. */
  lemma LateJoinIsServedOld(p: Params, s: State, r: nat)
    requires r in s.reqs && s.reqs[r].Waiting? && s.reqs[r].prefix in s.flights && s.reqs[r].prefix in s.landings
        && !OnTime(p, s, s.reqs[r])
    ensures var t := Next(p, Next(p, s, Land(s.reqs[r].prefix)), Wake(r));
            r in t.reqs && t.reqs[r].Done? && !LookedUpInTime(p, t.reqs[r].answer)
  {
  }

  // ------------------------------------------------------------------ the implementation

  /** What a locked section tells the request to do next. */
  datatype Move = Answered(a: Answer) | Wait | GoFetch(backup: Option<Entry>)

  class Authenticator {
    const p: Params
    var pos: seq<Item<Entry>>
    var neg: seq<Item<int>>
    var flights: map<string, bool>
    var inflightRefresh: int
    var inflightNew: int
    var downUntil: int
    ghost var reqs: map<nat, Req>
    ghost var landings: map<string, Landing>
    ghost var clock: int
    ghost var posLog: seq<Use>
    ghost var negLog: seq<Use>
    ghost var stored: set<(string, Entry)>

    ghost function St(): State
      reads this
    {
      State(pos, neg, flights, inflightRefresh, inflightNew, downUntil, reqs, landings, clock, stored, posLog, negLog)
    }

    constructor (p: Params)
      ensures this.p == p && St() == Start
    {
      this.p := p;
      pos, neg, flights, inflightRefresh, inflightNew, downUntil := [], [], map[], 0, 0, 0;
      reqs, landings, clock, stored, posLog, negLog := map[], map[], 0, {}, [], [];
    }

    /** The answer of the positive cache; what is too old is dropped. */
    method CheckPos(prefix: string, now: int) returns (v: Cached)
      modifies this`pos, this`posLog
      ensures v == PosVerdict(p, old(pos), prefix, now)
      ensures pos == LookAt(old(pos), prefix, !v.Miss?).0
          && posLog == old(posLog) + LookAt(old(pos), prefix, !v.Miss?).1
    {
      if !Holds(pos, prefix) { return Miss; }
      var e := Value(pos, prefix);
      var age := now - e.fetched;
      if 0 <= age < p.ttl {
        v := Fresh(e);
      } else if 0 <= age < p.ttl + p.grace {
        v := Stale(e);
      } else {
        pos, posLog := Remove(pos, prefix), posLog + [Drop(prefix)];
        return Miss;
      }
      pos, posLog := Touch(pos, prefix), posLog + [Hit(prefix)];
    }

    /** The answer of the negative cache. */
    method CheckNeg(prefix: string, now: int) returns (v: Cached)
      modifies this`neg, this`negLog
      ensures v == NegVerdict(p, old(neg), prefix, now)
      ensures neg == LookAt(old(neg), prefix, v.FreshUnknown?).0
          && negLog == old(negLog) + LookAt(old(neg), prefix, v.FreshUnknown?).1
    {
      if !Holds(neg, prefix) { return Miss; }
      if 0 <= now - Value(neg, prefix) < p.negativeTtl {
        neg, negLog := Touch(neg, prefix), negLog + [Hit(prefix)];
        return FreshUnknown;
      }
      neg, negLog := Remove(neg, prefix), negLog + [Drop(prefix)];
      return Miss;
    }

    /** The answer of the caches. */
    method CachedLocked(prefix: string, now: int) returns (v: Cached)
      modifies this`pos, this`neg, this`posLog, this`negLog
      ensures v == Verdict(p, old(St()), prefix, now) && St() == Look(p, old(St()), prefix, now)
    {
      v := CheckPos(prefix, now);
      if v.Miss? { v := CheckNeg(prefix, now); } else { assert negLog + [] == negLog; }
    }

    /** The first locked section of a request, which has read the clock before. */
    method Record(r: nat, prefix: string, now: int) returns (m: Move)
      requires r in reqs && reqs[r] == Arrived(prefix, now)
      modifies this
      ensures St() == BeginStep(p, old(St()), r)
      ensures m == match reqs[r] case Done(_, a) => Answered(a) case Pending(_, _, o) => GoFetch(o) case _ => Wait
    {
      var v := CachedLocked(prefix, now);
      var down := now < downUntil;
      match v {
        case Fresh(e) => m := Answered(Served(e, now, FromCache));
        case FreshUnknown => m := Answered(Unknown);
        case Stale(e) => m := if down then Answered(Served(e, now, StaleCopy)) else GoFetch(Some(e));
        case Miss => m := if down then Answered(Unavailable) else GoFetch(None);
      }
      reqs := reqs[r := if m.Answered? then Done(prefix, m.a) else Pending(prefix, now, m.backup)];
    }

    /** The locked section of fetch. */
    method FetchLocked(r: nat, prefix: string, asOf: int, backup: Option<Entry>, now: int) returns (m: Move)
      requires r in reqs && reqs[r] == Pending(prefix, asOf, backup)
      modifies this
      ensures St() == FetchStep(p, old(St()), r, now)
      ensures m == if reqs[r].Done? then Answered(reqs[r].answer) else Wait
    {
      var v := CachedLocked(prefix, now);
      clock := now;
      var refresh := backup.Some?;
      m := Wait;
      if v.Fresh? {
        m := Answered(Served(v.entry, now, FromCache));
      } else if v.FreshUnknown? {
        m := Answered(Unknown);
      } else if prefix in flights {
        if refresh { m := Answered(Fallback(backup, asOf)); }
      } else if inflightRefresh + inflightNew >= p.maxLookups
          || (!refresh && inflightNew >= p.maxLookups - Reserve(p)) {
        m := Answered(Fallback(backup, asOf));
      } else {
        if refresh { inflightRefresh := inflightRefresh + 1; } else { inflightNew := inflightNew + 1; }
        flights := flights[prefix := refresh];
      }
      reqs := reqs[r := if m.Answered? then Done(prefix, m.a) else Waiting(prefix, asOf, backup)];
    }

    /** The locked section at the end of a lookup. */
    method LookupDone(prefix: string, now: int, found: Lookup)
      requires prefix in flights && prefix in landings && landings[prefix] == Landing(now, found)
      modifies this
      ensures St() == LandStep(p, old(St()), prefix)
    {
      CloseFlight(prefix, now, found);
      AbsorbOutcome(prefix, now, found);
    }

    /** The locked section that notes the use of a served key. */
    method NoteUse(ghost r: nat, prefix: string)
      requires r in reqs && reqs[r].Done? && reqs[r].answer.Served? && reqs[r].prefix == prefix
      modifies this`pos, this`posLog
      ensures St() == Next(p, old(St()), Note(r))
    {
      pos, posLog := Touch(pos, prefix), posLog + [Hit(prefix)];
    }

    method CloseFlight(prefix: string, now: int, ghost found: Lookup)
      requires prefix in flights
      modifies this`flights, this`inflightRefresh, this`inflightNew, this`landings, this`reqs
      ensures St() == CloseUp(old(St()), prefix, now, found)
    {
      if flights[prefix] { inflightRefresh := inflightRefresh - 1; } else { inflightNew := inflightNew - 1; }
      flights := flights - {prefix};
      landings, reqs := landings - {prefix}, Told(reqs, prefix, found, now);
    }

    method AbsorbOutcome(prefix: string, now: int, found: Lookup)
      modifies this`pos, this`neg, this`stored, this`downUntil, this`posLog, this`negLog
      ensures St() == Absorb(p, old(St()), prefix, now, found)
    {
      match found {
        case Found(rec) => Remember(prefix, now, rec);
        case Missing => Forget(prefix, now);
        case Unreadable => downUntil := 0;
        case Busy =>
        case Down => downUntil := now + OUTAGE_BACKOFF;
      }
    }

    method Remember(prefix: string, now: int, rec: string)
      modifies this`pos, this`neg, this`stored, this`downUntil, this`posLog, this`negLog
      ensures St() == Absorb(p, old(St()), prefix, now, Found(rec))
    {
      RememberRecord(prefix, Entry(rec, now));
      ForgetUnknown(prefix);
      downUntil := 0;
      stored := stored + {(prefix, Entry(rec, now))};
    }

    method ForgetUnknown(prefix: string)
      modifies this`neg, this`negLog
      ensures neg == Remove(old(neg), prefix) && negLog == old(negLog) + [Drop(prefix)]
    {
      neg, negLog := Remove(neg, prefix), negLog + [Drop(prefix)];
    }

    method RememberRecord(prefix: string, e: Entry)
      modifies this`pos, this`posLog
      ensures pos == Put(Touch(old(pos), prefix), p.cacheSize, prefix, e) && posLog == old(posLog) + [Hit(prefix)]
          + [Store(prefix)]
    {
      pos, posLog := Touch(pos, prefix), posLog + [Hit(prefix)];
      pos, posLog := Put(pos, p.cacheSize, prefix, e), posLog + [Store(prefix)];
    }

    method Forget(prefix: string, now: int)
      modifies this`pos, this`neg, this`downUntil, this`posLog, this`negLog
      ensures St() == Absorb(p, old(St()), prefix, now, Missing)
    {
      pos := Remove(pos, prefix);
      neg := Put(neg, p.cacheSize, prefix, now);
      downUntil := 0;
      posLog, negLog := posLog + [Drop(prefix)], negLog + [Store(prefix)];
    }
  }
}
