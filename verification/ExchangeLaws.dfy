// What every exchange run keeps: a well-founded step measure, a once-only
// attempt ledger, and fallback that follows the frozen route plan.
module ExchangeLaws {
  import opened Wrappers
  import opened Exchange

  // --------------------------------------------------------------- the ledger

  predicate SamePair(a: Attempt, b: Attempt) {
    a.candidate == b.candidate && a.round == b.round
  }

  // Candidate and round never go back.
  predicate Ordered(a: seq<Attempt>) {
    forall i, j :: 0 <= i < j < |a| ==> a[i].candidate <= a[j].candidate && a[i].round <= a[j].round
  }

  // One candidate in one round: a preferred dispatch, then at most one retry of
  // another form, and nothing else.
  predicate Paired(a: seq<Attempt>) {
    forall i, j :: 0 <= i < j < |a| && SamePair(a[i], a[j]) ==>
      j == i + 1 && a[i].choice == Preferred && a[j].choice != Preferred
  }

  predicate Opened(a: seq<Attempt>) {
    forall j :: 0 <= j < |a| && a[j].choice != Preferred ==> j > 0 && SamePair(a[j - 1], a[j])
  }

  predicate Honest(a: seq<Attempt>) {
    forall i :: 0 <= i < |a| ==>
      && (a[i].choice == FullHistory ==> !a[i].native)
      && (a[i].failure.Some? <==> a[i].status == Failed)
  }

  predicate AllSettled(a: seq<Attempt>) {
    forall i :: 0 <= i < |a| ==> a[i].status != Calling
  }

  // The frozen plan and what is known about preparing its candidates.
  datatype Plan = Plan(route: seq<Target>, backoff: set<Target>, skipped: set<nat>)

  function PlanOf(s: State): Plan {
    Plan(s.route, s.backoff, s.skipped)
  }

  predicate Eligible(plan: Plan, index: nat) {
    index < |plan.route| && plan.route[index] !in plan.backoff
  }

  // Only candidates of the plan that were not suppressed are attempted.
  predicate Placed(a: seq<Attempt>, plan: Plan) {
    forall i :: 0 <= i < |a| ==> Eligible(plan, a[i].candidate) && a[i].generation == plan.route[a[i].candidate]
  }

  // Every candidate strictly between was suppressed or unavailable to prepare.
  predicate PassedOver(plan: Plan, from: int, to: nat) {
    forall i :: 0 <= i && from < i < to ==> !Eligible(plan, i) || i in plan.skipped
  }

  // Why a candidate may be left behind: its last call failed in the first round
  // in a way that admits another target, or preparing its retry did.
  predicate MayLeave(plan: Plan, attempt: Attempt) {
    || attempt.candidate in plan.skipped
    || (attempt.round == 0 && attempt.failure.Some? && AdvancesCandidate(attempt.failure.value.cause))
  }

  predicate Explained(a: seq<Attempt>, plan: Plan) {
    && (a != [] ==> PassedOver(plan, -1, a[0].candidate))
    && (forall j :: 0 < j < |a| && a[j - 1].candidate != a[j].candidate ==>
          && a[j - 1].round == a[j].round
          && PassedOver(plan, a[j - 1].candidate, a[j].candidate)
          && MayLeave(plan, a[j - 1]))
  }

  predicate Lawful(a: seq<Attempt>, plan: Plan) {
    && Ordered(a)
    && Paired(a)
    && Opened(a)
    && Honest(a)
    && Placed(a, plan)
    && Explained(a, plan)
  }

  predicate Ledger(s: State) {
    Lawful(s.attempts, PlanOf(s))
  }

  function Last(s: State): Attempt
    requires s.attempts != []
  {
    s.attempts[|s.attempts| - 1]
  }

  // The latest candidate was dispatched once in its round so far.
  predicate SoleDispatch(a: seq<Attempt>)
    requires a != []
  {
    |a| == 1 || !SamePair(a[|a| - 2], a[|a| - 1])
  }

  lemma {:induction false} CountAbsent(a: seq<Attempt>, candidate: nat, round: nat)
    requires forall i :: 0 <= i < |a| ==> !(a[i].candidate == candidate && a[i].round == round)
    ensures DispatchCount(a, candidate, round) == 0
  {
    if a != [] {
      CountAbsent(a[..|a| - 1], candidate, round);
    }
  }

  // No candidate is dispatched more than twice in a round, and twice exactly
  // when the last two attempts share the pair.
  lemma CountAtLast(a: seq<Attempt>)
    requires a != [] && Paired(a)
    ensures DispatchCount(a, a[|a| - 1].candidate, a[|a| - 1].round) == if SoleDispatch(a) then 1 else 2
  {
    var last := a[|a| - 1];
    var front := a[..|a| - 1];
    if SoleDispatch(a) {
      forall i | 0 <= i < |front|
        ensures !SamePair(front[i], last)
      {
        assert front[i] == a[i];
      }
      CountAbsent(front, last.candidate, last.round);
    } else {
      var rest := a[..|a| - 2];
      assert front[..|front| - 1] == rest;
      forall i | 0 <= i < |rest|
        ensures !SamePair(rest[i], last)
      {
        assert rest[i] == a[i];
      }
      CountAbsent(rest, last.candidate, last.round);
      assert DispatchCount(front, last.candidate, last.round) == 1;
    }
  }

  // What a ledger says about every pair: at most two dispatches.
  lemma {:induction false} AtMostTwoDispatches(a: seq<Attempt>, candidate: nat, round: nat)
    requires Paired(a)
    ensures DispatchCount(a, candidate, round) <= 2
  {
    if a != [] {
      var front, last := a[..|a| - 1], a[|a| - 1];
      assert forall i :: 0 <= i < |front| ==> front[i] == a[i];
      assert Paired(front);
      AtMostTwoDispatches(front, candidate, round);
      if last.candidate == candidate && last.round == round {
        CountAtLast(a);
      }
    }
  }

  // No operation is dispatched twice.
  lemma DispatchedOnce(a: seq<Attempt>, i: nat, j: nat)
    requires Paired(a) && i < j < |a|
    ensures !(SamePair(a[i], a[j]) && a[i].choice == a[j].choice)
  {
    if SamePair(a[i], a[j]) {
      assert a[i].choice == Preferred && a[j].choice != Preferred;
    }
  }

  // ------------------------------------------------------------ legal selections

  // A selection the ledger can take: the first eligible candidate, another form
  // of the sole dispatch so far, or a later eligible candidate.
  predicate Takes(a: seq<Attempt>, plan: Plan, rounds: nat, selection: Selection) {
    && Eligible(plan, selection.candidate)
    && (if a == [] then
          selection.choice == Preferred && rounds == 0 && PassedOver(plan, -1, selection.candidate)
        else
          var last := a[|a| - 1];
          && rounds == last.round
          && (if selection.candidate == last.candidate then
                selection.choice != Preferred && SoleDispatch(a)
              else
                && last.candidate < selection.candidate
                && selection.choice == Preferred
                && PassedOver(plan, last.candidate, selection.candidate)
                && MayLeave(plan, last)
                && (last.round == 0 || SoleDispatch(a))))
  }

  predicate Selectable(s: State, selection: Selection) {
    Takes(s.attempts, PlanOf(s), s.rounds, selection)
  }

  // The next attempt either opens a new pair or is the one retry of the last.
  predicate Succeeds(a: seq<Attempt>, next: Attempt) {
    a != [] ==>
      var last := a[|a| - 1];
      && last.candidate <= next.candidate && last.round <= next.round
      && (SamePair(last, next) ==> next.choice != Preferred && SoleDispatch(a))
      && (!SamePair(last, next) ==> next.choice == Preferred)
  }

  lemma PriorDiffers(a: seq<Attempt>, next: Attempt, i: nat)
    requires Ordered(a) && Paired(a) && Succeeds(a, next) && i < |a| - 1
    ensures a[i].candidate <= next.candidate && a[i].round <= next.round
    ensures !SamePair(a[i], next)
  {
    var n := |a|;
    assert a[i].candidate <= a[n - 1].candidate && a[i].round <= a[n - 1].round;
    assert SamePair(a[i], a[n - 1]) ==> n - 1 == i + 1;
  }

  // Growing the ledger by a successor keeps every law about attempts.
  lemma SuccessorKeepsOrder(a: seq<Attempt>, next: Attempt)
    requires Ordered(a) && Paired(a) && Opened(a) && Succeeds(a, next)
    requires a == [] ==> next.choice == Preferred
    ensures Ordered(a + [next]) && Paired(a + [next]) && Opened(a + [next])
  {
    var grown := a + [next];
    var n := |a|;
    forall i | 0 <= i < n
      ensures a[i].candidate <= next.candidate && a[i].round <= next.round
      ensures SamePair(a[i], next) ==> i == n - 1 && a[i].choice == Preferred && next.choice != Preferred
    {
      if i < n - 1 {
        PriorDiffers(a, next, i);
      }
    }
    assert forall i :: 0 <= i < n ==> grown[i] == a[i];
    assert grown[n] == next;
  }

  lemma SuccessorIsPlaced(a: seq<Attempt>, plan: Plan, next: Attempt)
    requires Placed(a, plan) && Eligible(plan, next.candidate) && next.generation == plan.route[next.candidate]
    ensures Placed(a + [next], plan)
  {
    var grown, n := a + [next], |a|;
    assert grown[n] == next && forall i :: 0 <= i < n ==> grown[i] == a[i];
  }

  lemma SuccessorIsExplained(a: seq<Attempt>, plan: Plan, next: Attempt)
    requires Explained(a, plan)
    requires a == [] ==> PassedOver(plan, -1, next.candidate)
    requires a != [] && a[|a| - 1].candidate != next.candidate ==>
               && a[|a| - 1].round == next.round
               && PassedOver(plan, a[|a| - 1].candidate, next.candidate)
               && MayLeave(plan, a[|a| - 1])
    ensures Explained(a + [next], plan)
  {
    var grown, n := a + [next], |a|;
    assert grown[n] == next && forall i :: 0 <= i < n ==> grown[i] == a[i];
  }

  lemma SuccessorKeepsPlan(a: seq<Attempt>, plan: Plan, next: Attempt)
    requires Placed(a, plan) && Explained(a, plan)
    requires Eligible(plan, next.candidate) && next.generation == plan.route[next.candidate]
    requires a == [] ==> PassedOver(plan, -1, next.candidate)
    requires a != [] && a[|a| - 1].candidate != next.candidate ==>
               && a[|a| - 1].round == next.round
               && PassedOver(plan, a[|a| - 1].candidate, next.candidate)
               && MayLeave(plan, a[|a| - 1])
    ensures Placed(a + [next], plan) && Explained(a + [next], plan)
  {
    SuccessorIsPlaced(a, plan, next);
    SuccessorIsExplained(a, plan, next);
  }

  lemma SelectableNotConsumed(s: State, selection: Selection)
    requires Ledger(s) && Selectable(s, selection)
    ensures !Consumed(s, selection)
  {
    var a := s.attempts;
    if a != [] {
      var next := a[0].(candidate := selection.candidate, choice := selection.choice, round := s.rounds);
      forall i | 0 <= i < |a|
        ensures !(SamePair(a[i], next) && a[i].choice == next.choice)
      {
        if i < |a| - 1 {
          PriorDiffers(a, next, i);
        }
      }
    }
  }

  // Dispatching a selectable operation keeps the ledger.
  lemma DispatchKeepsLedger(s: State, selection: Selection, ready: Preparation)
    requires Ledger(s) && Selectable(s, selection) && ready.Ready?
    ensures Lawful(s.attempts + [NewAttempt(s, selection, ready)], PlanOf(s))
  {
    var next := NewAttempt(s, selection, ready);
    SuccessorKeepsOrder(s.attempts, next);
    SuccessorKeepsPlan(s.attempts, PlanOf(s), next);
  }

  // ----------------------------------------------------------- ledger updates

  // Learning that a candidate cannot be prepared only adds explanations.
  lemma SkipKeepsLaw(a: seq<Attempt>, plan: Plan, candidate: nat)
    requires Lawful(a, plan)
    ensures Lawful(a, plan.(skipped := plan.skipped + {candidate}))
  {
    var grown := plan.(skipped := plan.skipped + {candidate});
    forall j | 0 < j < |a| && a[j - 1].candidate != a[j].candidate
      ensures PassedOver(grown, a[j - 1].candidate, a[j].candidate) && MayLeave(grown, a[j - 1])
    {
      assert PassedOver(plan, a[j - 1].candidate, a[j].candidate) && MayLeave(plan, a[j - 1]);
    }
  }

  // Same issued facts; only the outcome may differ.
  predicate SameIssue(a: Attempt, b: Attempt) {
    && a.candidate == b.candidate && a.choice == b.choice && a.round == b.round
    && a.native == b.native && a.generation == b.generation && a.facts == b.facts
  }

  // Recording the outcome of the latest call keeps the ledger.
  lemma SettleKeepsLaw(a: seq<Attempt>, plan: Plan, outcome: Attempt)
    requires Lawful(a, plan) && a != []
    requires SameIssue(a[|a| - 1], outcome)
    requires outcome.failure.Some? <==> outcome.status == Failed
    ensures Lawful(a[|a| - 1 := outcome], plan)
  {
    var b := a[|a| - 1 := outcome];
    SettleKeepsPairs(a, outcome);
    SettleKeepsPlan(a, plan, outcome);
    assert Honest(b);
  }

  lemma SettleKeepsPairs(a: seq<Attempt>, outcome: Attempt)
    requires Ordered(a) && Paired(a) && Opened(a) && a != [] && SameIssue(a[|a| - 1], outcome)
    ensures var b := a[|a| - 1 := outcome]; Ordered(b) && Paired(b) && Opened(b)
  {
    var b := a[|a| - 1 := outcome];
    assert forall i :: 0 <= i < |a| ==> SameIssue(a[i], b[i]);
    forall i, j | 0 <= i < j < |b|
      ensures SamePair(b[i], b[j]) <==> SamePair(a[i], a[j])
      ensures b[i].candidate <= b[j].candidate && b[i].round <= b[j].round
    {
      assert SameIssue(a[i], b[i]) && SameIssue(a[j], b[j]);
    }
    forall j | 0 <= j < |b| && b[j].choice != Preferred
      ensures j > 0 && SamePair(b[j - 1], b[j])
    {
      assert SameIssue(a[j], b[j]);
      assert SamePair(a[j - 1], a[j]) && SameIssue(a[j - 1], b[j - 1]);
    }
  }

  lemma SettleKeepsPlan(a: seq<Attempt>, plan: Plan, outcome: Attempt)
    requires Placed(a, plan) && Explained(a, plan) && a != [] && SameIssue(a[|a| - 1], outcome)
    ensures var b := a[|a| - 1 := outcome]; Placed(b, plan) && Explained(b, plan)
  {
    var b := a[|a| - 1 := outcome];
    assert forall i :: 0 <= i < |a| ==> SameIssue(a[i], b[i]);
    assert forall i :: 0 <= i < |a| - 1 ==> a[i] == b[i];
  }

  // ------------------------------------------------------------------ selection

  // Whatever the reducer selects after a failure is selectable.
  lemma SelectNextIsSelectable(s: State)
    requires Ledger(s) && SelectNext(s).Some?
    requires if s.attempts == [] then s.rounds == 0 else s.rounds == Last(s).round && Last(s).status == Failed
    ensures Selectable(s, SelectNext(s).value)
  {
    if s.attempts != [] {
      CountAtLast(s.attempts);
      assert Eligible(PlanOf(s), Last(s).candidate);
      NextEligibleInPlan(s, Last(s).candidate + 1);
    } else {
      NextEligibleInPlan(s, 0);
    }
  }

  lemma NextEligibleInPlan(s: State, start: nat)
    ensures var next := NextEligible(s, start);
            next.Some? ==>
              && Eligible(PlanOf(s), next.value.candidate)
              && forall i :: start <= i < next.value.candidate ==> !Eligible(PlanOf(s), i)
  {
    var next := NextEligible(s, start);
    if next.Some? {
      forall i | start <= i < next.value.candidate
        ensures !Eligible(PlanOf(s), i)
      {
        assert Suppressed(s, i);
      }
    }
  }

  // After the first round a failed call is answered by the same candidate with
  // full history, or by nothing.
  lemma LaterRoundsStayPut(s: State)
    requires s.attempts != [] && Last(s).round > 0
    ensures SelectNext(s).None? || SelectNext(s) == Some(Selection(Last(s).candidate, FullHistory))
  {
  }

  lemma ReprojectionIsSelectable(s: State)
    requires Ledger(s) && s.attempts != [] && s.rounds == Last(s).round
    requires DispatchCount(s.attempts, Last(s).candidate, Last(s).round) < 2
    ensures Selectable(s, Selection(Last(s).candidate, Reprojected))
  {
    CountAtLast(s.attempts);
    assert Eligible(PlanOf(s), Last(s).candidate);
  }

  // --------------------------------------------------------------- advancement

  predicate SameExchange(s: State, t: State) {
    && t.route == s.route && t.backoff == s.backoff
    && t.prepared == s.prepared && t.mcp == s.mcp && t.rounds == s.rounds
  }

  // One more attempt is in flight.
  predicate InFlight(s: State, t: State)
    requires |t.attempts| == |s.attempts| + 1
  {
    && t.attempts[..|s.attempts|] == s.attempts
    && Last(t).status == Calling
    && Last(t).round == s.rounds
    && t.phase.CallingProvider? && t.phase.id == |t.attempts|
    && t.evaluated == Last(t).candidate + 1
    && (s.attempts != [] ==>
          || (Last(s).candidate < Last(t).candidate && (Last(s).round == 0 || SoleDispatch(s.attempts)))
          || Last(s).round < Last(t).round
          || (SamePair(Last(s), Last(t)) && SoleDispatch(s.attempts)))
  }

  predicate Advanced(s: State, r: Reduced) {
    && r.Ok?
    && SameExchange(s, r.value.state)
    && Ledger(r.value.state)
    && (|| (r.value.state.phase == Exchange.Ended(Reported) && r.value.state.attempts == s.attempts)
        || (&& |r.value.state.attempts| == |s.attempts| + 1
            && InFlight(s, r.value.state)
            && r.value.command == Some(CallProvider(|s.attempts| + 1))))
  }

  lemma BeginAdvances(s: State, selection: Selection, ready: Preparation)
    requires Ledger(s) && AllSettled(s.attempts) && Selectable(s, selection) && ready.Ready?
    requires s.evaluated == selection.candidate + 1
    ensures Advanced(s, BeginAttempt(s, selection, ready))
  {
    SelectableNotConsumed(s, selection);
    DispatchKeepsLedger(s, selection, ready);
    var t := BeginAttempt(s, selection, ready).value.state;
    assert t.attempts[..|s.attempts|] == s.attempts;
  }

  // Walking the plan from a selectable operation either dispatches exactly one
  // attempt at or after it, or reports why no candidate could be prepared.
  lemma {:induction false} AdvanceFromAdvances(s: State, selection: Selection, edges: Edges, r: Reduced)
    requires Ledger(s) && AllSettled(s.attempts) && Selectable(s, selection)
    requires s.evaluated <= selection.candidate + 1
    requires r == AdvanceFrom(s, selection, edges)
    ensures Advanced(s, r)
    decreases |s.route| - selection.candidate
  {
    var seen := s.(evaluated := selection.candidate + 1);
    assert Evaluated(s, selection) == seen;
    var preparation := Prepare(seen, selection, edges);
    if preparation.Ready? {
      assert r == BeginAttempt(seen, selection, preparation);
      BeginAdvances(seen, selection, preparation);
      AdvancedVia(s, seen, r);
    } else if preparation.Unavailable? {
      AdvancePast(s, selection, edges, r);
    } else {
      assert r == Stop(seen, Reported);
      StopAdvances(s, seen);
    }
  }

  lemma {:induction false} AdvancePast(s: State, selection: Selection, edges: Edges, r: Reduced)
    requires Ledger(s) && AllSettled(s.attempts) && Selectable(s, selection)
    requires s.evaluated <= selection.candidate + 1
    requires Prepare(s, selection, edges).Unavailable?
    requires r == AdvanceFrom(s, selection, edges)
    ensures Advanced(s, r)
    decreases |s.route| - selection.candidate, 0
  {
    var passed := s.(evaluated := selection.candidate + 1, skipped := s.skipped + {selection.candidate});
    SkipKeepsLaw(s.attempts, PlanOf(s), selection.candidate);
    NextEligibleInPlan(passed, selection.candidate + 1);
    var next := NextEligible(passed, selection.candidate + 1);
    AdvanceSkips(s, selection, edges, passed, r);
    if next.Some? {
      StaysSelectable(s.attempts, PlanOf(s), s.rounds, selection, next.value, PlanOf(passed));
      AdvanceFromAdvances(passed, next.value, edges, r);
      AdvancedVia(s, passed, r);
    } else {
      StopAdvances(s, passed);
    }
  }

  // An unavailable candidate is noted and left for the next eligible one.
  lemma AdvanceSkips(s: State, selection: Selection, edges: Edges, passed: State, r: Reduced)
    requires s.evaluated <= selection.candidate + 1 && Prepare(s, selection, edges).Unavailable?
    requires passed == s.(evaluated := selection.candidate + 1, skipped := s.skipped + {selection.candidate})
    requires r == AdvanceFrom(s, selection, edges)
    ensures var next := NextEligible(passed, selection.candidate + 1);
            r == if next.Some? then AdvanceFrom(passed, next.value, edges) else Stop(passed, Reported)
  {
  }

  lemma StopAdvances(s: State, t: State)
    requires SameExchange(s, t) && t.attempts == s.attempts && Ledger(t)
    ensures Advanced(s, Stop(t, Reported))
  {
  }

  lemma AdvancedVia(s: State, t: State, r: Reduced)
    requires SameExchange(s, t) && t.attempts == s.attempts && Advanced(t, r)
    ensures Advanced(s, r)
  {
  }

  lemma StaysSelectable(a: seq<Attempt>, plan: Plan, rounds: nat, selection: Selection, next: Selection, grown: Plan)
    requires Takes(a, plan, rounds, selection)
    requires grown == plan.(skipped := plan.skipped + {selection.candidate})
    requires selection.candidate < next.candidate && next.choice == Preferred && Eligible(grown, next.candidate)
    requires forall i :: selection.candidate + 1 <= i < next.candidate ==> !Eligible(grown, i)
    ensures Takes(a, grown, rounds, next)
  {
    var from := if a == [] then -1 else a[|a| - 1].candidate;
    assert a == [] || a[|a| - 1].candidate <= selection.candidate;
    forall i | 0 <= i && from < i < next.candidate
      ensures !Eligible(grown, i) || i in grown.skipped
    {
      if i < selection.candidate {
        assert PassedOver(plan, from, selection.candidate);
        assert Eligible(grown, i) <==> Eligible(plan, i);
      }
    }
  }
}
