/** A whole run of the authenticator, on a clock that does not go back, in which a request joins a lookup that already
    has its answer and is served a record past its lifetime. */
module AuthRuns {
  import opened Prelude
  import opened Auth

  /** A lifetime of one, no grace, two lookups at most. */
  const P: Params := Params(1, 1, 1, 0, 2)

  const Came: State := Start.(reqs := map[0 := Arrived("k", 0)])
  const Missed: State := Start.(reqs := map[0 := Pending("k", 0, None)])
  const Asking: State := Start.(reqs := map[0 := Waiting("k", 0, None)], flights := map["k" := false], inflightNew := 1)
  const Answered: State := Asking.(landings := map["k" := Landing(0, Found("x"))])
  const Next1: State := Answered.(reqs := map[0 := Waiting("k", 0, None), 1 := Arrived("k", 1)], clock := 1)
  const Missed1: State := Answered.(reqs := map[0 := Waiting("k", 0, None), 1 := Pending("k", 1, None)], clock := 1)
  const Joined: State := Answered.(reqs := map[0 := Waiting("k", 0, None), 1 := Waiting("k", 1, None)], clock := 1)

  ghost predicate Step(s: State, l: Label, t: State) { Enabled(s, l) && Forward(s, l) && t == Next(P, s, l) }

  lemma Extend(labels: seq<Label>, states: seq<State>, l: Label, t: State)
    requires ForwardRun(P, labels, states) && Step(states[|states| - 1], l, t)
    ensures ForwardRun(P, labels + [l], states + [t])
  {
    var ls, ss := labels + [l], states + [t];
    forall i | 0 <= i < |ls| ensures StepsTo(P, ls, ss, i) && Forward(ss[i], ls[i]) {
      if i < |labels| { assert StepsTo(P, labels, states, i); }
    }
  }

  /** Both caches are empty, so a look changes nothing. */
  lemma NothingCached(s: State, now: int)
    requires s.pos == [] && s.neg == [] && s.posLog == [] && s.negLog == []
    ensures Verdict(P, s, "k", now).Miss? && Look(P, s, "k", now) == s
  {
  }

  lemma FirstAsks()
    ensures Step(Start, Arrive(0, "k", 0), Came) && Step(Came, Begin(0), Missed) && Step(Missed, Fetch(0, 0), Asking)
    ensures Step(Asking, Reply("k", 0, Found("x")), Answered)
  {
    NothingCached(Came, 0);
    NothingCached(Missed, 0);
  }

  lemma SecondJoins()
    ensures Step(Answered, Arrive(1, "k", 1), Next1) && Step(Next1, Begin(1), Missed1)
        && Step(Missed1, Fetch(1, 1), Joined)
    ensures LateJoin(P, Missed1, Fetch(1, 1))
  {
    NothingCached(Next1, 1);
    NothingCached(Missed1, 1);
  }

  lemma OldRecordIsServed() returns (labels: seq<Label>, states: seq<State>)
    ensures Sane(P) && ForwardRun(P, labels, states)
    ensures var s := states[|states| - 1]; 1 in s.reqs && s.reqs[1].Done? && !LookedUpInTime(P, s.reqs[1].answer)
  {
    FirstAsks();
    SecondJoins();
    labels, states := [], [Start];
    Extend(labels, states, Arrive(0, "k", 0), Came);
    labels, states := labels + [Arrive(0, "k", 0)], states + [Came];
    Extend(labels, states, Begin(0), Missed);
    labels, states := labels + [Begin(0)], states + [Missed];
    Extend(labels, states, Fetch(0, 0), Asking);
    labels, states := labels + [Fetch(0, 0)], states + [Asking];
    Extend(labels, states, Reply("k", 0, Found("x")), Answered);
    labels, states := labels + [Reply("k", 0, Found("x"))], states + [Answered];
    Extend(labels, states, Arrive(1, "k", 1), Next1);
    labels, states := labels + [Arrive(1, "k", 1)], states + [Next1];
    Extend(labels, states, Begin(1), Missed1);
    labels, states := labels + [Begin(1)], states + [Missed1];
    Extend(labels, states, Fetch(1, 1), Joined);
    labels, states := labels + [Fetch(1, 1)], states + [Joined];
    labels, states := Delivers(labels, states);
  }

  lemma Delivers(labels: seq<Label>, states: seq<State>) returns (ls: seq<Label>, ss: seq<State>)
    requires ForwardRun(P, labels, states) && states[|states| - 1] == Joined
    ensures ForwardRun(P, ls, ss)
    ensures var s := ss[|ss| - 1]; 1 in s.reqs && s.reqs[1].Done? && !LookedUpInTime(P, s.reqs[1].answer)
  {
    LateJoinIsServedOld(P, Joined, 1);
    var landed := Next(P, Joined, Land("k"));
    Extend(labels, states, Land("k"), landed);
    ls, ss := labels + [Land("k")], states + [landed];
    var woken := Next(P, landed, Wake(1));
    Extend(ls, ss, Wake(1), woken);
    ls, ss := ls + [Wake(1)], ss + [woken];
  }
}
