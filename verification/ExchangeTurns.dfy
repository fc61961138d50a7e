// What each turn of an exchange does, told from the raw fields of the attempt,
// the failure and the plan: who is called next and how, when a run ends and with
// which problem, and what a decoded answer leads to.
module ExchangeTurns {
  import opened Wrappers
  import opened Exchange
  import opened ExchangeLaws
  import opened ExchangeRuns
  import opened ExchangeLaterRounds

  // ------------------------------------------------------------- one dispatch

  // The attempt is in flight exactly as it was selected and prepared.
  predicate Issues(s: State, t: State, j: nat, choice: Choice, edges: Edges) {
    && j < |s.route| && edges.prepare(Selection(j, choice)).Ready?
    && var ready := edges.prepare(Selection(j, choice));
       && t.attempts == s.attempts
            + [Attempt(j, choice, s.rounds, ready.native && choice != FullHistory, s.route[j], ready.facts, Calling, None)]
       && t.phase == CallingProvider(|s.attempts| + 1, ready.delayed || (s.mcp.Some? && s.mcp.value != {}))
       && t.evaluated == j + 1 && Otherwise(s, t)
  }

  // Nothing else of the state changed.
  predicate Otherwise(s: State, t: State) {
    t == s.(attempts := t.attempts, phase := t.phase, evaluated := t.evaluated, skipped := t.skipped)
  }

  predicate Dispatches(s: State, r: Reduced, j: nat, choice: Choice, edges: Edges) {
    && r.Ok? && r.value.command == Some(CallProvider(|s.attempts| + 1))
    && Issues(s, r.value.state, j, choice, edges)
  }

  // The attempts of one candidate in one round.
  function Dispatched(attempts: seq<Attempt>, candidate: nat, round: nat): set<nat> {
    set i | 0 <= i < |attempts| && attempts[i].candidate == candidate && attempts[i].round == round
  }

  lemma {:induction false} CountIsDispatched(attempts: seq<Attempt>, candidate: nat, round: nat)
    ensures DispatchCount(attempts, candidate, round) == |Dispatched(attempts, candidate, round)|
  {
    if attempts != [] {
      var last := |attempts| - 1;
      var front := attempts[..last];
      CountIsDispatched(front, candidate, round);
      assert Dispatched(attempts, candidate, round) ==
             Dispatched(front, candidate, round)
             + if attempts[last].candidate == candidate && attempts[last].round == round then {last} else {};
    }
  }

  // The walk from a selection dispatches where it lands, the selection itself in
  // its own form and any later candidate in the preferred one.
  lemma {:induction false} WalkDispatches(s: State, selection: Selection, edges: Edges, r: Reduced, j: nat)
    requires Ledger(s) && AllSettled(s.attempts) && Selectable(s, selection)
    requires s.evaluated <= selection.candidate + 1
    requires r == AdvanceFrom(s, selection, edges) && Lands(PlanOf(s), edges, selection, j)
    ensures Dispatches(s, r, j, if j == selection.candidate then selection.choice else Preferred, edges)
    decreases |s.route| - selection.candidate
  {
    if edges.prepare(selection).Ready? {
      ReadyDispatches(s, selection, edges, r);
    } else {
      UnavailableDispatches(s, selection, edges, r, j);
    }
  }

  lemma ReadyDispatches(s: State, selection: Selection, edges: Edges, r: Reduced)
    requires Ledger(s) && Selectable(s, selection) && s.evaluated <= selection.candidate + 1
    requires r == AdvanceFrom(s, selection, edges) && edges.prepare(selection).Ready?
    ensures Dispatches(s, r, selection.candidate, selection.choice, edges)
  {
    SelectableNotConsumed(s, selection);
    assert Consumed(Evaluated(s, selection), selection) == Consumed(s, selection);
  }

  lemma {:induction false} UnavailableDispatches(s: State, selection: Selection, edges: Edges, r: Reduced, j: nat)
    requires Ledger(s) && AllSettled(s.attempts) && Selectable(s, selection)
    requires s.evaluated <= selection.candidate + 1 && edges.prepare(selection).Unavailable?
    requires r == AdvanceFrom(s, selection, edges) && FirstReady(PlanOf(s), edges, selection.candidate, j)
    ensures Dispatches(s, r, j, Preferred, edges)
    decreases |s.route| - selection.candidate, 0
  {
    var passed := s.(evaluated := selection.candidate + 1, skipped := s.skipped + {selection.candidate});
    SkipKeepsLaw(s.attempts, PlanOf(s), selection.candidate);
    NextEligibleInPlan(passed, selection.candidate + 1);
    AdvanceSkips(s, selection, edges, passed, r);
    var next := NextEligible(passed, selection.candidate + 1);
    NoneLaterIfNone(s, passed, selection.candidate + 1);
    if next.Some? {
      StaysSelectable(s.attempts, PlanOf(s), s.rounds, selection, next.value, PlanOf(passed));
      LandsLater(PlanOf(s), PlanOf(passed), edges, selection.candidate, next.value, j);
      WalkDispatches(passed, next.value, edges, r, j);
      DispatchesAlike(s, passed, r, j, Preferred, edges);
    }
  }

  lemma DispatchesAlike(s: State, t: State, r: Reduced, j: nat, choice: Choice, edges: Edges)
    requires t.attempts == s.attempts && Otherwise(s, t) && Dispatches(t, r, j, choice, edges)
    ensures Dispatches(s, r, j, choice, edges)
  {
  }

  lemma NoneLaterIfNone(s: State, passed: State, start: nat)
    requires passed.route == s.route && passed.backoff == s.backoff
    ensures NextEligible(passed, start).None? ==> forall i :: start <= i ==> !Eligible(PlanOf(s), i)
  {
    if NextEligible(passed, start).None? {
      NoneLater(s, passed, start);
    }
  }

  // A walk that lands nowhere reports the preparation that stopped it.
  lemma {:induction false} WalkReports(s: State, selection: Selection, edges: Edges, r: Reduced)
    requires selection.candidate < |s.route| && r == AdvanceFrom(s, selection, edges)
    requires !edges.prepare(selection).Ready?
    requires edges.prepare(selection).Unavailable? ==>
               forall j: nat :: !FirstReady(PlanOf(s), edges, selection.candidate, j)
    ensures r.Ok? && r.value.command.None? && r.value.state.attempts == s.attempts
    ensures r.value.state.phase == Exchange.Ended(Reported) && Otherwise(s, r.value.state)
    decreases |s.route| - selection.candidate
  {
    if edges.prepare(selection).Unavailable? {
      var seen := Evaluated(s, selection);
      var passed := seen.(skipped := seen.skipped + {selection.candidate});
      var next := NextEligible(passed, selection.candidate + 1);
      if next.Some? {
        assert r == AdvanceFrom(passed, next.value, edges);
        StillNowhere(s, passed, edges, selection.candidate, next.value);
        WalkReports(passed, next.value, edges, r);
      }
    }
  }

  lemma StillNowhere(s: State, passed: State, edges: Edges, from: nat, next: Selection)
    requires passed.route == s.route && passed.backoff == s.backoff
    requires NextEligible(passed, from + 1) == Some(next)
    requires forall j: nat :: !FirstReady(PlanOf(s), edges, from, j)
    ensures !edges.prepare(next).Ready?
    ensures edges.prepare(next).Unavailable? ==> forall j: nat :: !FirstReady(PlanOf(passed), edges, next.candidate, j)
  {
    NextEligibleInPlan(passed, from + 1);
    forall j: nat
      ensures Lands(PlanOf(passed), edges, next, j) <==> FirstReady(PlanOf(s), edges, from, j)
    {
      LandsLater(PlanOf(s), PlanOf(passed), edges, from, next, j);
    }
    assert !Lands(PlanOf(passed), edges, next, next.candidate);
    forall j: nat | edges.prepare(next).Unavailable?
      ensures !FirstReady(PlanOf(passed), edges, next.candidate, j)
    {
      assert !Lands(PlanOf(passed), edges, next, j);
    }
  }

  // ---------------------------------------------------------- after a failure

  // The retry of the same candidate that a failure leads to, if any: one per
  // round, in the form the learnt facts ask for, or with full history after a
  // reference was refused before anything ran.
  function Retrying(last: Attempt, sole: bool, failure: Failure, learnt: bool): Option<Choice> {
    if !sole then None
    else if learnt then Some(Reprojected)
    else if && last.native && failure.execution == RejectedBeforeExecution
            && failure.cause.rejected && failure.cause.referenceInvalid then Some(FullHistory)
    else None
  }

  // The failure lets another candidate have the call.
  predicate Fallback(last: Attempt, failure: Failure) {
    last.round == 0 && (failure.cause.unavailable || failure.cause.rejected)
  }

  // Who is called after a failure: the same candidate again, or the first later
  // candidate that is eligible and can be prepared.
  predicate Follower(plan: Plan, edges: Edges, last: Attempt, retry: Option<Choice>, failure: Failure, j: nat, choice: Choice) {
    || (retry == Some(choice) && j == last.candidate && edges.prepare(Selection(j, choice)).Ready?)
    || (&& choice == Preferred && FirstReady(plan, edges, last.candidate, j)
        && (if retry.Some? then edges.prepare(Selection(last.candidate, retry.value)).Unavailable?
            else Fallback(last, failure)))
  }

  // The problem a run ends with when nobody follows a failure.
  function Exhausted(cause: Cause): Problem {
    if cause.timeout then ProviderTimeout
    else if cause.unavailable && !cause.backend then ProviderUnavailable
    else ProviderFailure(cause)
  }

  predicate NobodyLater(plan: Plan, candidate: nat) {
    forall i :: candidate < i < |plan.route| ==> plan.route[i] in plan.backoff
  }

  // The reduction of a failed position.
  ghost predicate Decides(failed: State, edges: Edges, learnt: bool, r: Reduced)
    requires failed.attempts != [] && Last(failed).failure.Some?
  {
    var last, plan, failure := Last(failed), PlanOf(failed), Last(failed).failure.value;
    var retry := Retrying(last, SoleDispatch(failed.attempts), failure, learnt);
    && r.Ok?
    && (forall j: nat, choice :: Follower(plan, edges, last, retry, failure, j, choice) ==> Dispatches(failed, r, j, choice, edges))
    && ((forall j: nat, choice :: !Follower(plan, edges, last, retry, failure, j, choice)) ==>
          && r.value.command.None? && r.value.state.attempts == failed.attempts && Otherwise(failed, r.value.state)
          && r.value.state.phase ==
             if retry.None? && (!Fallback(last, failure) || NobodyLater(plan, last.candidate))
             then Exchange.Ended(Exhausted(failure.cause)) else Exchange.Ended(Reported))
  }

  // The reduction the reducer makes of a failed position.
  predicate Reduces(failed: State, edges: Edges, learnt: bool, r: Reduced)
    requires failed.attempts != []
  {
    if learnt && SoleDispatch(failed.attempts)
    then r == AdvanceFrom(failed, Selection(Last(failed).candidate, Reprojected), edges)
    else CanTerminate(failed) && r == Advance(failed, edges)
  }

  lemma RetryDecides(failed: State, edges: Edges, learnt: bool, choice: Choice, r: Reduced)
    requires Ledger(failed) && Engaged(failed, Exchange.Failed) && AllSettled(failed.attempts)
    requires Last(failed).round == failed.rounds && Last(failed).failure.Some? && choice != Preferred
    requires Retrying(Last(failed), SoleDispatch(failed.attempts), Last(failed).failure.value, learnt) == Some(choice)
    requires r == AdvanceFrom(failed, Selection(Last(failed).candidate, choice), edges)
    ensures Decides(failed, edges, learnt, r)
  {
    var last, plan, failure := Last(failed), PlanOf(failed), Last(failed).failure.value;
    var selection := Selection(last.candidate, choice);
    assert Eligible(plan, last.candidate);
    assert Selectable(failed, selection);
    forall j: nat, how | Follower(plan, edges, last, Some(choice), failure, j, how)
      ensures Dispatches(failed, r, j, how, edges)
    {
      WalkDispatches(failed, selection, edges, r, j);
    }
    if forall j: nat, how :: !Follower(plan, edges, last, Some(choice), failure, j, how) {
      assert !Follower(plan, edges, last, Some(choice), failure, last.candidate, choice);
      forall j: nat | edges.prepare(selection).Unavailable?
        ensures !FirstReady(plan, edges, last.candidate, j)
      {
        assert !Follower(plan, edges, last, Some(choice), failure, j, Preferred);
      }
      WalkReports(failed, selection, edges, r);
    }
  }

  lemma FallbackDecides(failed: State, edges: Edges, learnt: bool, next: Selection, r: Reduced)
    requires Ledger(failed) && Engaged(failed, Exchange.Failed) && AllSettled(failed.attempts)
    requires Last(failed).round == failed.rounds && Last(failed).failure.Some?
    requires Retrying(Last(failed), SoleDispatch(failed.attempts), Last(failed).failure.value, learnt).None?
    requires Fallback(Last(failed), Last(failed).failure.value)
    requires NextEligible(failed, Last(failed).candidate + 1) == Some(next)
    requires Selectable(failed, next) && r == AdvanceFrom(failed, next, edges)
    ensures Decides(failed, edges, learnt, r)
  {
    var last, plan, failure := Last(failed), PlanOf(failed), Last(failed).failure.value;
    NextEligibleInPlan(failed, last.candidate + 1);
    forall j: nat
      ensures Lands(plan, edges, next, j) <==> FirstReady(plan, edges, last.candidate, j)
    {
      LandsLater(plan, plan, edges, last.candidate, next, j);
    }
    forall j: nat, how | Follower(plan, edges, last, None, failure, j, how)
      ensures Dispatches(failed, r, j, how, edges)
    {
      WalkDispatches(failed, next, edges, r, j);
    }
    if forall j: nat, how :: !Follower(plan, edges, last, None, failure, j, how) {
      forall j: nat ensures !FirstReady(plan, edges, last.candidate, j) {
        assert !Follower(plan, edges, last, None, failure, j, Preferred);
      }
      assert !Lands(plan, edges, next, next.candidate);
      forall j: nat | edges.prepare(next).Unavailable?
        ensures !FirstReady(plan, edges, next.candidate, j)
      {
        assert !Lands(plan, edges, next, j);
      }
      WalkReports(failed, next, edges, r);
      assert Eligible(plan, next.candidate);
    }
  }

  lemma EndDecides(failed: State, edges: Edges, learnt: bool, r: Reduced)
    requires Ledger(failed) && Engaged(failed, Exchange.Failed) && CanTerminate(failed) && Last(failed).failure.Some?
    requires Retrying(Last(failed), SoleDispatch(failed.attempts), Last(failed).failure.value, learnt).None?
    requires !Fallback(Last(failed), Last(failed).failure.value) || NextEligible(failed, Last(failed).candidate + 1).None?
    requires r == Terminate(failed)
    ensures Decides(failed, edges, learnt, r)
  {
    var last, plan, failure := Last(failed), PlanOf(failed), Last(failed).failure.value;
    if Fallback(last, failure) {
      NoneLater(failed, failed, last.candidate + 1);
      forall i | last.candidate < i < |plan.route|
        ensures plan.route[i] in plan.backoff
      {
        assert !Eligible(plan, i);
      }
    }
  }

  // Every failed position is decided by the raw fields of its last attempt.
  lemma FailureDecides(failed: State, edges: Edges, learnt: bool, r: Reduced)
    requires Ledger(failed) && Engaged(failed, Exchange.Failed) && AllSettled(failed.attempts)
    requires Last(failed).round == failed.rounds && Last(failed).failure.Some? && Reduces(failed, edges, learnt, r)
    ensures Decides(failed, edges, learnt, r)
  {
    var last, failure := Last(failed), Last(failed).failure.value;
    var retry := Retrying(last, SoleDispatch(failed.attempts), failure, learnt);
    CountAtLast(failed.attempts);
    if retry.Some? {
      RetryDecides(failed, edges, learnt, retry.value, r);
    } else if Fallback(last, failure) && NextEligible(failed, last.candidate + 1).Some? {
      assert SelectNext(failed) == NextEligible(failed, last.candidate + 1);
      SelectNextIsSelectable(failed);
      FallbackDecides(failed, edges, learnt, NextEligible(failed, last.candidate + 1).value, r);
    } else {
      assert SelectNext(failed).None?;
      EndDecides(failed, edges, learnt, r);
    }
  }

  // --------------------------------------------------------- turns of a failure

  // A rejected call of the first round that had read facts: those are looked up
  // before anything else is tried.
  predicate LooksUp(c: Config)
    requires c.state.attempts != []
  {
    && c.state.phase.CallingProvider? && c.event.ProviderCallFailed?
    && Last(c.state).round == 0 && Last(c.state).facts != map[] && c.event.failure.cause.rejected
  }

  // The failure a turn acts on: of the call, of decoding its answer, or the one
  // whose facts were looked up.
  function FailureIn(c: Config): Option<Failure>
    requires c.state.attempts != []
  {
    match c.event
    case ProviderCallFailed(_, failure) => if LooksUp(c) then None else Some(failure)
    case ProviderIngressReceived(_, Undecodable(cause)) => Some(Failure(MayHaveOccurred, cause))
    case FactsCharacterized(_, _, _) => Last(c.state).failure
    case _ => None
  }

  // Some fact the attempt relied on turned out otherwise.
  ghost predicate Learnt(c: Config)
    requires c.state.attempts != []
  {
    c.event.FactsCharacterized? &&
    exists fact :: fact in Last(c.state).facts && fact in c.event.resolutions
                   && c.event.resolutions[fact] != Last(c.state).facts[fact]
  }

  // The position with the failure on record.
  function FailedWith(s: State, failure: Failure): State
    requires s.attempts != []
  {
    s.(attempts := s.attempts[|s.attempts| - 1 := Last(s).(status := Exchange.Failed, failure := Some(failure))])
  }

  lemma CallFailureReduces(c: Config, edges: Edges, bound: nat, failure: Failure, failed: State, r: Reduced)
    requires Inv(c, bound) && c.state.phase.CallingProvider? && FailureIn(c) == Some(failure)
    requires failed == FailedWith(c.state, failure) && r == Reduce(c.state, c.event, edges)
    ensures Ledger(failed) && Engaged(failed, Exchange.Failed) && AllSettled(failed.attempts)
    ensures Last(failed).round == failed.rounds && Last(failed).failure == Some(failure)
    ensures Reduces(failed, edges, Learnt(c), r)
  {
    var s := c.state;
    SettledPosition(s, Last(s).(status := Exchange.Failed, failure := Some(failure)), failed, c.spent);
    assert FailAttempt(s, s.phase.id, failure) == Ok(failed);
  }

  // Whoever follows a failure is decided by its raw fields, in every round and
  // whether facts were looked up or not.
  lemma FailureTurn(c: Config, edges: Edges, answer: Answer, bound: nat, p: Progress, failure: Failure)
    returns (r: Reduced)
    requires Inv(c, bound) && c.state.attempts != [] && FailureIn(c) == Some(failure)
    requires c.state.phase.CallingProvider? || c.state.phase.ResolvingFacts?
    requires p == Step(c, edges, answer)
    ensures Follows(p, r, answer, c.spent) && Decides(FailedWith(c.state, failure), edges, Learnt(c), r)
  {
    var s, failed := c.state, FailedWith(c.state, failure);
    r := Reduce(s, c.event, edges);
    if s.phase.CallingProvider? {
      CallFailureReduces(c, edges, bound, failure, failed, r);
    } else {
      LookedUpReduces(c, edges, bound, failure, failed, r);
    }
    FailureDecides(failed, edges, Learnt(c), r);
  }

  lemma LookedUpReduces(c: Config, edges: Edges, bound: nat, failure: Failure, failed: State, r: Reduced)
    requires Inv(c, bound) && c.state.phase.ResolvingFacts? && Last(c.state).failure == Some(failure)
    requires failed == FailedWith(c.state, failure) && r == Reduce(c.state, c.event, edges)
    ensures Ledger(failed) && Engaged(failed, Exchange.Failed) && AllSettled(failed.attempts)
    ensures Last(failed).round == failed.rounds && Last(failed).failure == Some(failure)
    ensures Reduces(failed, edges, Learnt(c), r)
  {
    var s := c.state;
    LookedUpPosition(c, bound, failure);
    CountAtLast(s.attempts);
    assert FactsChanged(Last(s).facts, c.event.resolutions) <==> Learnt(c);
    ResolvingReduces(s, c.event, edges, r);
  }

  lemma LookedUpPosition(c: Config, bound: nat, failure: Failure)
    requires Inv(c, bound) && c.state.phase.ResolvingFacts? && Last(c.state).failure == Some(failure)
    ensures c.state.attempts != [] && FailedWith(c.state, failure) == c.state
    ensures Ledger(c.state) && Engaged(c.state, Exchange.Failed) && AllSettled(c.state.attempts)
    ensures Last(c.state).round == c.state.rounds && c.state.phase == ResolvingFacts(|c.state.attempts|)
    ensures c.event.FactsCharacterized? && c.event.id == |c.state.attempts| && c.event.generation == Last(c.state).generation
  {
    EngagedIsSettled(c.state, Exchange.Failed);
  }

  lemma ResolvingReduces(s: State, event: Event, edges: Edges, r: Reduced)
    requires s.attempts != [] && Last(s).failure.Some? && s.phase == ResolvingFacts(|s.attempts|)
    requires event.FactsCharacterized? && event.id == |s.attempts| && event.generation == Last(s).generation
    requires r == Reduce(s, event, edges)
    ensures CanTerminate(s)
    ensures r == if && FactsChanged(Last(s).facts, event.resolutions)
                    && DispatchCount(s.attempts, Last(s).candidate, Last(s).round) < 2
                 then AdvanceFrom(s, Selection(Last(s).candidate, Reprojected), edges)
                 else Advance(s, edges)
  {
  }

  // The turn that looks facts up: the failure is on record, nobody is called, and
  // of the answer only facts that were read come back.
  lemma LookupTurn(c: Config, edges: Edges, answer: Answer, bound: nat, p: Progress)
    requires Inv(c, bound) && c.state.attempts != [] && LooksUp(c) && p == Step(c, edges, answer)
    ensures p.Running? && p.config.spent == c.spent
    ensures p.config.state == FailedWith(c.state, c.event.failure).(phase := ResolvingFacts(|c.state.attempts|))
    ensures p.config.event.FactsCharacterized? && p.config.event.id == |c.state.attempts|
    ensures p.config.event.generation == Last(c.state).generation
    ensures forall f :: f in p.config.event.resolutions <==> f in answer.facts && f in Last(c.state).facts
    ensures forall f :: f in p.config.event.resolutions ==> p.config.event.resolutions[f] == answer.facts[f]
  {
    LookupReduces(c.state, c.event.failure, edges, Reduce(c.state, c.event, edges));
  }

  lemma LookupReduces(s: State, failure: Failure, edges: Edges, r: Reduced)
    requires s.attempts != [] && Last(s).status == Calling
    requires s.phase.CallingProvider? && s.phase.id == |s.attempts|
    requires Last(s).round == 0 && Last(s).facts != map[] && failure.cause.rejected
    requires r == Reduce(s, ProviderCallFailed(|s.attempts|, failure), edges)
    ensures r == Ok(Outcome(FailedWith(s, failure).(phase := ResolvingFacts(|s.attempts|)),
                            Some(CharacterizeFacts(|s.attempts|, Last(s).generation, Last(s).facts.Keys))))
  {
    assert FailAttempt(s, |s.attempts|, failure) == Ok(FailedWith(s, failure));
  }

  // ------------------------------------------------------------- whole runs end

  lemma {:induction false} LastTurn(driver: Driver, c: Config, from: nat, turns: nat, s: State) returns (k: nat, d: Config)
    requires RunFor(driver, c, from, turns) == Done(s)
    ensures k < turns && RunFor(driver, c, from, k) == Running(d) && driver(d, from + k) == Done(s)
    decreases turns
  {
    if driver(c, from).Running? {
      k, d := LastTurn(driver, driver(c, from).config, from + 1, turns - 1, s);
      k := k + 1;
    } else {
      k, d := 0, c;
    }
  }

  predicate ProviderProblem(problem: Problem) {
    problem.ProviderTimeout? || problem.ProviderUnavailable? || problem.ProviderFailure?
  }

  lemma DoneTurnEnds(c: Config, edges: Edges, answer: Answer, bound: nat, s: State)
    requires Inv(c, bound) && Step(c, edges, answer) == Done(s)
    requires s.phase.Ended? && ProviderProblem(s.phase.problem)
    ensures s.attempts != [] && Last(s).failure.Some? && s.phase.problem == Exhausted(Last(s).failure.value.cause)
    ensures Fallback(Last(s), Last(s).failure.value) ==> NobodyLater(PlanOf(s), Last(s).candidate)
  {
    if c.state.attempts != [] && FailureIn(c).Some? {
      var failure := FailureIn(c).value;
      var r := FailureTurn(c, edges, answer, bound, Step(c, edges, answer), failure);
      EndedTurn(FailedWith(c.state, failure), edges, Learnt(c), answer, c.spent, r, s);
    } else {
      OtherTurnsReport(c, edges, answer, bound, s);
    }
  }

  lemma OtherTurnsReport(c: Config, edges: Edges, answer: Answer, bound: nat, s: State)
    requires Inv(c, bound) && Step(c, edges, answer) == Done(s)
    requires !(c.state.attempts != [] && FailureIn(c).Some?)
    ensures s.phase.Ended? ==> !ProviderProblem(s.phase.problem)
  {
    if c.state.phase.PreparingMcp? && c.event.run.Some? && edges.finalize {
      var prepared := c.state.(drafted := false, prepared := true, mcp := c.event.run.value);
      FirstTurnReports(prepared, edges, Reduce(c.state, c.event, edges));
    } else if c.state.phase.CallingProvider? {
      if c.event.ProviderIngressReceived? {
        AnsweredReports(c, edges, bound, Reduce(c.state, c.event, edges));
      } else {
        LookupTurn(c, edges, answer, bound, Step(c, edges, answer));
      }
    } else if c.state.phase.CallingMcp? {
      ToolTurnReports(c.state, c.event, edges, Reduce(c.state, c.event, edges));
    }
  }

  lemma AnsweredReports(c: Config, edges: Edges, bound: nat, r: Reduced)
    requires Inv(c, bound) && c.state.phase.CallingProvider? && c.event.ProviderIngressReceived?
    requires c.event.completion.Decoded? && r == Reduce(c.state, c.event, edges)
    ensures r.Ok? && r.value.state.phase.Ended? ==> !ProviderProblem(r.value.state.phase.problem)
  {
    var done := c.state.(attempts := c.state.attempts[|c.state.attempts| - 1 := Last(c.state).(status := HandoffReady)]);
    assert CompleteAttempt(c.state, c.state.phase.id) == Ok(done);
    IngressReduces(c.state, done, c.event.completion, edges, r);
  }

  lemma ToolTurnReports(s: State, event: Event, edges: Edges, r: Reduced)
    requires s.phase.CallingMcp? && r == Reduce(s, event, edges)
    ensures r.Ok? && r.value.state.phase.Ended? ==> !ProviderProblem(r.value.state.phase.problem)
  {
  }

  lemma FirstTurnReports(s: State, edges: Edges, r: Reduced)
    requires Ledger(s) && s.attempts == [] && s.rounds == 0 && s.evaluated == 0 && s.prepared && r == Advance(s, edges)
    ensures r.Ok? && (r.value.state.phase.Ended? ==> !ProviderProblem(r.value.state.phase.problem))
  {
    if SelectNext(s).Some? {
      SelectNextIsSelectable(s);
      AdvanceFromAdvances(s, SelectNext(s).value, edges, r);
    }
  }

  lemma EndedTurn(failed: State, edges: Edges, learnt: bool, answer: Answer, spent: Spent, r: Reduced, s: State)
    requires failed.attempts != [] && Last(failed).failure.Some? && Follows(Done(s), r, answer, spent)
    requires Decides(failed, edges, learnt, r) && s.phase.Ended? && ProviderProblem(s.phase.problem)
    ensures s.attempts == failed.attempts && s.phase.problem == Exhausted(Last(failed).failure.value.cause)
    ensures Fallback(Last(s), Last(s).failure.value) ==> NobodyLater(PlanOf(s), Last(s).candidate)
  {
  }

  // A run that ends in a provider problem ends in the problem of its last
  // attempt's failure, and if that failure lets others have the call, every later
  // candidate of the plan was suppressed.
  lemma ProviderProblemIsExhaustive(
    previous: Previous, rebased: bool, backoff: set<Target>, world: nat -> Turn, turns: nat, s: State)
    requires RunFor(DriverOf(world), Initial(previous, rebased, backoff), 0, turns) == Done(s)
    requires s.phase.Ended? && ProviderProblem(s.phase.problem)
    ensures s.attempts != [] && Last(s).failure.Some? && s.phase.problem == Exhausted(Last(s).failure.value.cause)
    ensures Fallback(Last(s), Last(s).failure.value) ==> NobodyLater(PlanOf(s), Last(s).candidate)
  {
    var k, d, bound := LastConfig(previous, rebased, backoff, world, turns, s);
    DoneTurnEnds(d, world(k).edges, world(k).answer, bound, s);
  }

  // Every run that ends takes its last turn from a sound configuration.
  lemma LastConfig(previous: Previous, rebased: bool, backoff: set<Target>, world: nat -> Turn, turns: nat, s: State)
    returns (k: nat, d: Config, bound: nat)
    requires RunFor(DriverOf(world), Initial(previous, rebased, backoff), 0, turns) == Done(s)
    ensures Inv(d, bound) && Step(d, world(k).edges, world(k).answer) == Done(s)
  {
    bound := PlanBound(world(0)) + PlanBound(world(1));
    k, d := LastTurn(DriverOf(world), Initial(previous, rebased, backoff), 0, turns, s);
    RunningIsInv(previous, rebased, backoff, world, bound, k, d);
    DriverSteps(world, d, k, Done(s));
  }

  lemma DriverSteps(world: nat -> Turn, c: Config, k: nat, p: Progress)
    requires DriverOf(world)(c, k) == p
    ensures Step(c, world(k).edges, world(k).answer) == p
  {
  }
}
