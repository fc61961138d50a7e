// Whole exchange runs: one invariant, one measure, and what they give.
module ExchangeRuns {
  import opened Wrappers
  import opened Exchange
  import opened ExchangeLaws

  // ------------------------------------------------------------- the invariant

  predicate Within(spent: Spent) {
    spent.rounds <= MAX_REMOTE_ROUNDS && spent.calls <= MAX_REMOTE_CALLS
  }

  predicate Untried(s: State, spent: Spent) {
    && s.attempts == [] && s.rounds == 0 && s.evaluated == 0 && s.skipped == {}
    && !s.prepared && spent == Spent(0, 0)
  }

  // The ledger's last attempt is the one the phase is about.
  predicate Engaged(s: State, status: Status) {
    && s.prepared
    && s.attempts != []
    && AllSettled(s.attempts[..|s.attempts| - 1])
    && Last(s).status == status
    && s.evaluated == Last(s).candidate + 1
  }

  predicate AnswersCall(event: Event, id: nat) {
    (event.ProviderCallFailed? || event.ProviderIngressReceived?) && event.id == id
  }

  // In every running configuration the pending event answers the phase's own
  // command, exactly one attempt is in flight when a provider is being called
  // and none otherwise, and the reserved rounds are the rounds begun.
  predicate Inv(c: Config, bound: nat) {
    var s := c.state;
    && Within(c.spent)
    && Ledger(s)
    && |s.route| <= bound
    && match s.phase
       case Starting => c.event.Started? && Untried(s, c.spent)
       case LoadingCheckpoint(_) => c.event.CheckpointLoaded? && Untried(s, c.spent)
       case PreparingMcp => c.event.McpPrepared? && Untried(s, c.spent) && s.drafted
       case CallingProvider(id, _) =>
         && AnswersCall(c.event, id)
         && Engaged(s, Calling) && id == |s.attempts|
         && Last(s).round == s.rounds == c.spent.rounds
       case ResolvingFacts(id) =>
         && Engaged(s, Exchange.Failed) && id == |s.attempts|
         && Last(s).round == s.rounds == c.spent.rounds == 0
         && c.event.FactsCharacterized? && c.event.id == id && c.event.generation == Last(s).generation
       case CallingMcp(candidate, calls, next) =>
         && Engaged(s, HandoffReady) && candidate == Last(s).candidate
         && s.rounds == Last(s).round + 1 && s.mcp.Some?
         && next < |calls|
         && (|| (c.event == McpBatchStarted(false))
             || (c.event == McpBatchStarted(true) && next == 0 && c.spent.rounds == s.rounds)
             || (c.event.McpToolReturned? && c.spent.rounds == s.rounds))
       case _ => false
  }

  predicate WhollySuppressed(s: State) {
    |s.route| > 0 && forall i :: 0 <= i < |s.route| ==> !Eligible(PlanOf(s), i)
  }

  predicate DoneInv(s: State) {
    && Ledger(s)
    && AllSettled(s.attempts)
    && (s.phase == Exchange.Ended(NoAvailableTarget) <==> s.prepared && WhollySuppressed(s))
    && (s.phase.Completed? ==>
          s.attempts != [] && Last(s).status == HandoffReady && s.evaluated == Last(s).candidate + 1)
  }

  // ---------------------------------------------------------------- the measure

  // What a position can still cost. A candidate not yet opened costs four
  // reductions in the first round, where a failed call is characterized, and one
  // later, where only an unavailable retry moves on. A round not yet opened costs
  // three, and every tool call left one.
  function Ahead(s: State, candidate: nat, round: nat, spent: Spent): int {
    (if round == 0 then 4 else 1) * (|s.route| - 1 - candidate)
    + 3 * (MAX_REMOTE_ROUNDS - round)
    + (MAX_REMOTE_CALLS - spent.calls)
  }

  // A second dispatch of the same candidate in the same round.
  function Retry(round: nat): int {
    if round == 0 then 2 else 1
  }

  function Rest(s: State, spent: Spent): int
    requires s.attempts != []
  {
    (if SoleDispatch(s.attempts) then Retry(Last(s).round) else 0) + Ahead(s, Last(s).candidate, Last(s).round, spent)
  }

  function Fuel(c: Config, bound: nat): int
    requires Inv(c, bound)
  {
    var s := c.state;
    match s.phase
    case Starting => 4 * bound + 43
    case LoadingCheckpoint(_) => 4 * bound + 42
    case PreparingMcp => 4 * |s.route| + 41
    case CallingProvider(_, _) => 2 + Rest(s, c.spent)
    case ResolvingFacts(_) => 1 + Rest(s, c.spent)
    case CallingMcp(candidate, calls, next) =>
      if c.event == McpBatchStarted(false) then 1
      else (if c.event.McpBatchStarted? then 1 else 0) + |calls| - next + 3 + Ahead(s, candidate, s.rounds, c.spent)
  }

  lemma FuelIsPositive(c: Config, bound: nat)
    requires Inv(c, bound)
    ensures Fuel(c, bound) >= 1
  {
    var s := c.state;
    if s.attempts != [] {
      assert Eligible(PlanOf(s), Last(s).candidate);
    }
  }

  // ------------------------------------------------------------ one turn's law

  // Attempts already issued keep their issued facts, and settled ones keep
  // their outcome.
  predicate Appends(s: State, t: State) {
    && |s.attempts| <= |t.attempts|
    && forall i :: 0 <= i < |s.attempts| ==>
         && SameIssue(s.attempts[i], t.attempts[i])
         && (s.attempts[i].status != Calling ==> t.attempts[i] == s.attempts[i])
  }

  predicate Moves(c: Config, p: Progress, bound: nat)
    requires Inv(c, bound)
  {
    match p
    case Faulted(_) => false
    case Done(t) => DoneInv(t) && Appends(c.state, t)
    case Running(d) => Inv(d, bound) && Fuel(d, bound) < Fuel(c, bound) && Appends(c.state, d.state)
  }

  // How the driver carries a reduction on.
  predicate Follows(p: Progress, r: Reduced, answer: Answer, spent: Spent) {
    match r
    case Err(violation) => p == Faulted(violation)
    case Ok(outcome) =>
      if Terminal(outcome.state.phase) then p == Done(outcome.state)
      else if outcome.command.None? then p == Faulted(NoCommand)
      else
        var executed := Execute(outcome.command.value, answer, outcome.state, spent);
        p == Running(Config(outcome.state, executed.event, executed.spent))
  }

  lemma FreshStopIsDone(s: State)
    requires s.attempts == [] && !s.prepared
    ensures DoneInv(s.(phase := Exchange.Ended(Reported)))
  {
  }

  // Checkpoint and draft, before anything was tried: stopped, or one phase on.
  predicate Begins(s: State, r: Reduced, bound: nat) {
    && r.Ok?
    && var t := r.value.state;
       && t.attempts == [] && t == s.(route := t.route, drafted := t.drafted, phase := t.phase)
       && |t.route| <= bound
       && (|| t.phase == Exchange.Ended(Reported)
           || (t.phase.LoadingCheckpoint? && s.phase.Starting? && r.value.command == Some(LoadCheckpoint(t.phase.explicit)))
           || (t.phase.PreparingMcp? && t.drafted && r.value.command == Some(PrepareMcp)))
  }

  lemma BeginningMoves(c: Config, answer: Answer, bound: nat, r: Reduced, p: Progress)
    requires Inv(c, bound) && Early(c) && Begins(c.state, r, bound)
    requires Follows(p, r, answer, c.spent)
    ensures Moves(c, p, bound)
  {
    if r.value.state.phase.Ended? {
      FreshStopIsDone(r.value.state);
    }
  }

  lemma StartingStep(c: Config, edges: Edges, answer: Answer, bound: nat, p: Progress)
    requires Inv(c, bound) && c.state.phase.Starting?
    requires edges.route.Some? ==> |edges.route.value| <= bound
    requires p == Step(c, edges, answer)
    ensures Moves(c, p, bound)
  {
    BeginningMoves(c, answer, bound, Reduce(c.state, c.event, edges), p);
  }

  lemma LoadingStep(c: Config, edges: Edges, answer: Answer, bound: nat, p: Progress)
    requires Inv(c, bound) && c.state.phase.LoadingCheckpoint?
    requires edges.route.Some? ==> |edges.route.value| <= bound
    requires p == Step(c, edges, answer)
    ensures Moves(c, p, bound)
  {
    BeginningMoves(c, answer, bound, Reduce(c.state, c.event, edges), p);
  }

  // A dispatch costs at most what the settled position had left, and one more
  // after the first round, where no characterization came between.
  lemma FlightFuel(s: State, t: State, spent: Spent)
    requires s.attempts != [] && |t.attempts| == |s.attempts| + 1
    requires SameExchange(s, t) && InFlight(s, t) && Ledger(t) && s.rounds == Last(s).round
    ensures 2 + Rest(t, spent) <= Rest(s, spent) + (if s.rounds == 0 then 0 else 1)
  {
    assert t.attempts[|t.attempts| - 2] == Last(s);
    assert Eligible(PlanOf(t), Last(t).candidate);
    assert Last(t).round == Last(s).round;
  }

  lemma FlightIsInv(s: State, t: State, answer: Answer, spent: Spent, bound: nat)
    requires AllSettled(s.attempts) && s.prepared && |s.route| <= bound && Within(spent)
    requires |t.attempts| == |s.attempts| + 1
    requires SameExchange(s, t) && InFlight(s, t) && Ledger(t) && s.rounds == spent.rounds
    ensures var executed := Execute(CallProvider(|t.attempts|), answer, t, spent);
            executed.spent == spent && Inv(Config(t, executed.event, spent), bound)
  {
    assert t.attempts[..|t.attempts| - 1] == s.attempts;
  }

  // A settled, failed position: what the reducer does next is lawful and costs
  // at most what the position had left.
  lemma FailedMoves(s: State, edges: Edges, answer: Answer, spent: Spent, bound: nat, r: Reduced)
    requires Ledger(s) && AllSettled(s.attempts) && s.attempts != [] && Last(s).status == Exchange.Failed
    requires s.prepared && s.evaluated == Last(s).candidate + 1 && |s.route| <= bound && Within(spent)
    requires Last(s).round == s.rounds == spent.rounds
    requires || (CanTerminate(s) && r == Advance(s, edges))
             || (DispatchCount(s.attempts, Last(s).candidate, Last(s).round) < 2
                 && r == AdvanceFrom(s, Selection(Last(s).candidate, Reprojected), edges))
    ensures Settles(s, r, answer, spent, bound)
  {
    if CanTerminate(s) && r == Advance(s, edges) && SelectNext(s).None? {
      TerminatedIsDone(s, ExhaustedProblem(Last(s).failure.value.cause));
    } else {
      var selection := Selection(Last(s).candidate, Reprojected);
      if r == AdvanceFrom(s, selection, edges) && DispatchCount(s.attempts, Last(s).candidate, Last(s).round) < 2 {
        ReprojectionIsSelectable(s);
      } else {
        SelectNextIsSelectable(s);
        selection := SelectNext(s).value;
      }
      AdvanceFromAdvances(s, selection, edges, r);
      AdvancedSettles(s, r, answer, spent, bound);
    }
  }

  predicate Settles(s: State, r: Reduced, answer: Answer, spent: Spent, bound: nat)
    requires s.attempts != []
  {
    && r.Ok?
    && |s.attempts| <= |r.value.state.attempts| && r.value.state.attempts[..|s.attempts|] == s.attempts
    && if Terminal(r.value.state.phase) then DoneInv(r.value.state)
       else
         && r.value.command.Some?
         && var executed := Execute(r.value.command.value, answer, r.value.state, spent);
            var d := Config(r.value.state, executed.event, executed.spent);
            Inv(d, bound) && Fuel(d, bound) <= Rest(s, spent) + (if s.rounds == 0 then 0 else 1)
  }

  lemma FlightSettles(s: State, r: Reduced, answer: Answer, spent: Spent, bound: nat)
    requires Ledger(s) && AllSettled(s.attempts) && s.attempts != []
    requires s.prepared && |s.route| <= bound && Within(spent)
    requires Last(s).round == s.rounds == spent.rounds
    requires r.Ok? && SameExchange(s, r.value.state) && Ledger(r.value.state)
    requires |r.value.state.attempts| == |s.attempts| + 1 && InFlight(s, r.value.state)
    requires r.value.command == Some(CallProvider(|s.attempts| + 1))
    ensures Settles(s, r, answer, spent, bound)
  {
    FlightIsInv(s, r.value.state, answer, spent, bound);
    FlightFuel(s, r.value.state, spent);
  }

  lemma AdvancedSettles(s: State, r: Reduced, answer: Answer, spent: Spent, bound: nat)
    requires Ledger(s) && AllSettled(s.attempts) && s.attempts != []
    requires s.prepared && |s.route| <= bound && Within(spent)
    requires Last(s).round == s.rounds == spent.rounds
    requires Advanced(s, r)
    ensures Settles(s, r, answer, spent, bound)
  {
    var t := r.value.state;
    if t.phase == Exchange.Ended(Reported) && t.attempts == s.attempts {
      assert t.attempts[..|s.attempts|] == s.attempts;
      TerminatedIsDone(t, Reported);
    } else {
      FlightSettles(s, r, answer, spent, bound);
    }
  }

  lemma TerminatedIsDone(s: State, problem: Problem)
    requires Ledger(s) && AllSettled(s.attempts) && s.attempts != [] && problem != NoAvailableTarget
    ensures DoneInv(s.(phase := Exchange.Ended(problem)))
  {
    assert Eligible(PlanOf(s), Last(s).candidate);
  }

  lemma PreparingStep(c: Config, edges: Edges, answer: Answer, bound: nat, p: Progress)
    requires Inv(c, bound) && c.state.phase.PreparingMcp?
    requires p == Step(c, edges, answer)
    ensures Moves(c, p, bound)
  {
    if c.event.run.None? || !edges.finalize {
      FreshStopIsDone(c.state);
    } else {
      var s := c.state.(drafted := false, prepared := true, mcp := c.event.run.value);
      var r := Advance(s, edges);
      assert r == Reduce(c.state, c.event, edges);
      FirstSelection(s, edges, answer, c.spent, bound, r);
    }
  }

  // The first selection of a run: the wholly suppressed plan is refused as such,
  // and nothing else is.
  lemma FirstSelection(s: State, edges: Edges, answer: Answer, spent: Spent, bound: nat, r: Reduced)
    requires Ledger(s) && s.attempts == [] && s.rounds == 0 && s.evaluated == 0 && s.prepared
    requires spent == Spent(0, 0) && |s.route| <= bound
    requires r == Advance(s, edges)
    ensures r.Ok?
    ensures Terminal(r.value.state.phase) ==> DoneInv(r.value.state)
    ensures !Terminal(r.value.state.phase) ==>
              && r.value.command.Some?
              && var executed := Execute(r.value.command.value, answer, r.value.state, spent);
                 var d := Config(r.value.state, executed.event, executed.spent);
                 Inv(d, bound) && Fuel(d, bound) < 4 * |s.route| + 41
  {
    NextEligibleInPlan(s, 0);
    var selection := SelectNext(s);
    if selection.None? {
      forall i | 0 <= i < |s.route|
        ensures !Eligible(PlanOf(s), i)
      {
        assert Suppressed(s, i);
      }
    } else {
      SelectNextIsSelectable(s);
      AdvanceFromAdvances(s, selection.value, edges, r);
      var t := r.value.state;
      assert Eligible(PlanOf(t), selection.value.candidate);
      if |t.attempts| == 1 {
        FlightIsInv(s, t, answer, spent, bound);
        assert Eligible(PlanOf(t), Last(t).candidate);
      }
    }
  }

  // --------------------------------------------------------- provider answers

  // Recording an outcome leaves the position, and so its cost, where it was.
  lemma SettledPosition(s: State, outcome: Attempt, t: State, spent: Spent)
    requires Ledger(s) && Engaged(s, Calling)
    requires SameIssue(Last(s), outcome) && outcome.status != Calling
    requires outcome.failure.Some? <==> outcome.status == Exchange.Failed
    requires t == s.(attempts := s.attempts[|s.attempts| - 1 := outcome])
    ensures Ledger(t) && AllSettled(t.attempts) && t.attempts != [] && Last(t) == outcome
    ensures Rest(t, spent) == Rest(s, spent)
    ensures Appends(s, t)
    ensures Engaged(t, outcome.status)
  {
    SettleKeepsLaw(s.attempts, PlanOf(s), outcome);
    SettledMembers(s.attempts, outcome, t.attempts);
  }

  lemma SettledMembers(attempts: seq<Attempt>, outcome: Attempt, after: seq<Attempt>)
    requires attempts != [] && AllSettled(attempts[..|attempts| - 1])
    requires SameIssue(attempts[|attempts| - 1], outcome) && outcome.status != Calling
    requires after == attempts[|attempts| - 1 := outcome]
    ensures AllSettled(after) && after[..|attempts| - 1] == attempts[..|attempts| - 1]
    ensures forall i :: 0 <= i < |attempts| ==> SameIssue(attempts[i], after[i])
  {
    var n := |attempts|;
    forall i | 0 <= i < n
      ensures after[i].status != Calling && SameIssue(attempts[i], after[i])
    {
      if i < n - 1 {
        assert attempts[..n - 1][i].status != Calling;
      }
    }
  }

  lemma RestIsNatural(s: State, spent: Spent)
    requires Ledger(s) && s.attempts != [] && Within(spent) && Last(s).round <= MAX_REMOTE_ROUNDS
    ensures Rest(s, spent) >= 0
  {
    assert Eligible(PlanOf(s), Last(s).candidate);
  }

  lemma AppendsMore(s: State, t: State, u: State)
    requires Appends(s, t) && AllSettled(t.attempts)
    requires |t.attempts| <= |u.attempts| && u.attempts[..|t.attempts|] == t.attempts
    ensures Appends(s, u)
  {
    forall i | 0 <= i < |s.attempts|
      ensures u.attempts[i] == t.attempts[i]
    {
      assert u.attempts[..|t.attempts|][i] == u.attempts[i];
    }
  }

  // A failed call, however it failed.
  lemma FailureMoves(c: Config, failed: State, edges: Edges, answer: Answer, bound: nat, r: Reduced, p: Progress)
    requires Inv(c, bound) && c.state.phase.CallingProvider?
    requires Ledger(failed) && Engaged(failed, Exchange.Failed) && AllSettled(failed.attempts)
    requires SameExchange(c.state, failed) && Last(failed).round == failed.rounds
    requires Appends(c.state, failed) && Rest(failed, c.spent) == Rest(c.state, c.spent)
    requires Follows(p, r, answer, c.spent)
    requires CanTerminate(failed) && r == Advance(failed, edges)
    ensures Moves(c, p, bound)
  {
    FailedMoves(failed, edges, answer, c.spent, bound, r);
    AppendsMore(c.state, failed, r.value.state);
  }

  lemma CallFailedReduces(s: State, failure: Failure, edges: Edges, failed: State, r: Reduced)
    requires s.phase.CallingProvider? && s.attempts != [] && s.phase.id == |s.attempts| && Last(s).status == Calling
    requires failed == s.(attempts := s.attempts[|s.attempts| - 1 :=
                            Last(s).(status := Exchange.Failed, failure := Some(failure))])
    requires r == Reduce(s, ProviderCallFailed(s.phase.id, failure), edges)
    ensures if CharacterizationAdmitted(Last(s), failure) then
              r == Ok(Outcome(failed.(phase := ResolvingFacts(s.phase.id)),
                              Some(CharacterizeFacts(s.phase.id, Last(s).generation, Last(s).facts.Keys))))
            else CanTerminate(failed) && r == Advance(failed, edges)
  {
    assert FailAttempt(s, s.phase.id, failure) == Ok(failed);
  }

  lemma CallFailedStep(c: Config, edges: Edges, answer: Answer, bound: nat, p: Progress)
    requires Inv(c, bound) && c.state.phase.CallingProvider? && c.event.ProviderCallFailed?
    requires p == Step(c, edges, answer)
    ensures Moves(c, p, bound)
  {
    var s, attempt, failure := c.state, Last(c.state), c.event.failure;
    var outcome := attempt.(status := Exchange.Failed, failure := Some(failure));
    var failed := s.(attempts := s.attempts[|s.attempts| - 1 := outcome]);
    SettledPosition(s, outcome, failed, c.spent);
    var r := Reduce(s, c.event, edges);
    CallFailedReduces(s, failure, edges, failed, r);
    if CharacterizationAdmitted(attempt, failure) {
      CharacterizeMoves(c, failed, edges, answer, bound, r, p);
    } else {
      FailureMoves(c, failed, edges, answer, bound, r, p);
    }
  }

  lemma MovesTo(c: Config, d: Config, bound: nat)
    requires Inv(c, bound) && Inv(d, bound) && Fuel(d, bound) < Fuel(c, bound) && Appends(c.state, d.state)
    ensures Moves(c, Running(d), bound)
  {
  }

  lemma AppendsSame(s: State, t: State, u: State)
    requires Appends(s, t) && u.attempts == t.attempts
    ensures Appends(s, u)
  {
  }

  // The failed call's facts being looked up.
  function LookupOf(failed: State, facts: map<string, bool>, spent: Spent): Config
    requires failed.attempts != []
  {
    Config(failed.(phase := ResolvingFacts(|failed.attempts|)),
           FactsCharacterized(|failed.attempts|, Last(failed).generation, facts), spent)
  }

  lemma LookupIsInv(failed: State, facts: map<string, bool>, spent: Spent, bound: nat)
    requires Ledger(failed) && Engaged(failed, Exchange.Failed) && Within(spent) && |failed.route| <= bound
    requires Last(failed).round == failed.rounds == spent.rounds == 0
    ensures Inv(LookupOf(failed, facts, spent), bound)
    ensures Fuel(LookupOf(failed, facts, spent), bound) == 1 + Rest(failed, spent)
  {
  }

  lemma LookupRuns(failed: State, answer: Answer, spent: Spent, r: Reduced, p: Progress) returns (facts: map<string, bool>)
    requires failed.attempts != []
    requires r == Ok(Outcome(failed.(phase := ResolvingFacts(|failed.attempts|)),
                             Some(CharacterizeFacts(|failed.attempts|, Last(failed).generation, Last(failed).facts.Keys))))
    requires Follows(p, r, answer, spent)
    ensures p == Running(LookupOf(failed, facts, spent))
  {
    facts := map f | f in answer.facts && f in Last(failed).facts.Keys :: answer.facts[f];
  }

  lemma CharacterizeMoves(c: Config, failed: State, edges: Edges, answer: Answer, bound: nat, r: Reduced, p: Progress)
    requires Inv(c, bound) && c.state.phase.CallingProvider?
    requires Ledger(failed) && Engaged(failed, Exchange.Failed)
    requires SameExchange(c.state, failed) && Last(failed).round == failed.rounds == 0
    requires |failed.attempts| == |c.state.attempts|
    requires Appends(c.state, failed) && Rest(failed, c.spent) == Rest(c.state, c.spent)
    requires r == Ok(Outcome(failed.(phase := ResolvingFacts(|failed.attempts|)),
                             Some(CharacterizeFacts(|failed.attempts|, Last(failed).generation, Last(failed).facts.Keys))))
    requires Follows(p, r, answer, c.spent)
    ensures Moves(c, p, bound)
  {
    var facts := LookupRuns(failed, answer, c.spent, r, p);
    LookupIsInv(failed, facts, c.spent, bound);
    AppendsSame(c.state, failed, LookupOf(failed, facts, c.spent).state);
    MovesTo(c, LookupOf(failed, facts, c.spent), bound);
  }

  lemma IngressStep(c: Config, edges: Edges, answer: Answer, bound: nat, p: Progress)
    requires Inv(c, bound) && c.state.phase.CallingProvider? && c.event.ProviderIngressReceived?
    requires p == Step(c, edges, answer)
    ensures Moves(c, p, bound)
  {
    var s, attempt, completion := c.state, Last(c.state), c.event.completion;
    var r := Reduce(s, c.event, edges);
    assert r == ReduceIngress(s, s.phase, attempt, completion, edges);
    if completion.Undecodable? {
      UndecodableMoves(c, edges, answer, bound, r, p);
    } else {
      AnswerMoves(c, edges, answer, bound, r, p);
    }
  }

  // A decoded answer settles the attempt.
  lemma AnswerMoves(c: Config, edges: Edges, answer: Answer, bound: nat, r: Reduced, p: Progress)
    requires Inv(c, bound) && c.state.phase.CallingProvider? && c.event.ProviderIngressReceived?
    requires c.event.completion.Decoded?
    requires r == ReduceIngress(c.state, c.state.phase, Last(c.state), c.event.completion, edges)
    requires Follows(p, r, answer, c.spent)
    ensures Moves(c, p, bound)
  {
    var s, outcome := c.state, Last(c.state).(status := HandoffReady);
    var done := s.(attempts := s.attempts[|s.attempts| - 1 := outcome]);
    assert Last(s).failure.None?;
    SettledPosition(s, outcome, done, c.spent);
    assert CompleteAttempt(s, s.phase.id) == Ok(done);
    DecodedMoves(c, done, c.event.completion, edges, answer, bound, r, p);
  }

  // An answer that cannot be decoded is a failed call that may have executed.
  lemma UndecodableMoves(c: Config, edges: Edges, answer: Answer, bound: nat, r: Reduced, p: Progress)
    requires Inv(c, bound) && c.state.phase.CallingProvider? && c.event.ProviderIngressReceived?
    requires c.event.completion.Undecodable?
    requires r == ReduceIngress(c.state, c.state.phase, Last(c.state), c.event.completion, edges)
    requires Follows(p, r, answer, c.spent)
    ensures Moves(c, p, bound)
  {
    var s, failure := c.state, Failure(MayHaveOccurred, c.event.completion.cause);
    var outcome := Last(s).(status := Exchange.Failed, failure := Some(failure));
    var failed := s.(attempts := s.attempts[|s.attempts| - 1 := outcome]);
    SettledPosition(s, outcome, failed, c.spent);
    assert FailAttempt(s, s.phase.id, failure) == Ok(failed);
    FailureMoves(c, failed, edges, answer, bound, r, p);
  }

  lemma DecodedMoves(
    c: Config, done: State, completion: Completion, edges: Edges, answer: Answer, bound: nat, r: Reduced, p: Progress)
    requires Inv(c, bound) && c.state.phase.CallingProvider? && completion.Decoded?
    requires Ledger(done) && Engaged(done, HandoffReady) && AllSettled(done.attempts)
    requires done == c.state.(attempts := done.attempts)
    requires Last(done).candidate == Last(c.state).candidate && Last(done).round == done.rounds
    requires Appends(c.state, done) && Rest(done, c.spent) == Rest(c.state, c.spent)
    requires CompleteAttempt(c.state, c.state.phase.id) == Ok(done)
    requires r == ReduceIngress(c.state, c.state.phase, Last(c.state), completion, edges)
    requires Follows(p, r, answer, c.spent)
    ensures Moves(c, p, bound)
  {
    var calls := Classify(done.mcp, completion.calls);
    IngressReduces(c.state, done, completion, edges, r);
    if c.state.phase.delayed && calls.Some? && calls.value != [] {
      RestIsNatural(done, c.spent);
      BatchMoves(c, done, calls.value, answer, bound, r, p);
    } else if c.state.phase.delayed && (calls.None? || !completion.handoff) {
      TerminatedIsDone(done, Reported);
    } else {
      CompletedIsDone(done);
    }
  }

  // A decoded answer hands tool calls on, or ends the run.
  lemma IngressReduces(s: State, done: State, completion: Completion, edges: Edges, r: Reduced)
    requires s.phase.CallingProvider? && completion.Decoded? && s.attempts != [] && done.attempts != []
    requires CompleteAttempt(s, s.phase.id) == Ok(done) && Last(done).candidate == Last(s).candidate
    requires r == ReduceIngress(s, s.phase, Last(s), completion, edges)
    ensures var calls := Classify(done.mcp, completion.calls);
            if s.phase.delayed && calls.Some? && calls.value != [] then
              r == BeginBatch(done.(rounds := done.rounds + 1), CallingMcp(Last(done).candidate, calls.value, 0))
            else if s.phase.delayed && (calls.None? || !completion.handoff) then r == Stop(done, Reported)
            else r == Ok(Outcome(done.(phase := Completed), None))
  {
  }

  lemma CompletedIsDone(s: State)
    requires Ledger(s) && AllSettled(s.attempts) && Engaged(s, HandoffReady)
    ensures DoneInv(s.(phase := Completed))
  {
    assert Eligible(PlanOf(s), Last(s).candidate);
  }

  // A batch of the round just answered, with its reservation paid or refused.
  function BatchOf(done: State, calls: seq<Call>, started: bool, spent: Spent): Config
    requires done.attempts != []
  {
    Config(done.(rounds := done.rounds + 1, phase := CallingMcp(Last(done).candidate, calls, 0)),
           McpBatchStarted(started), spent)
  }

  lemma BatchIsInv(done: State, calls: seq<Call>, started: bool, spent: Spent, bound: nat)
    requires Ledger(done) && Engaged(done, HandoffReady) && Last(done).round == done.rounds && |done.route| <= bound
    requires calls != [] && done.mcp.Some? && Within(spent) && (started ==> spent.rounds == done.rounds + 1)
    ensures Inv(BatchOf(done, calls, started, spent), bound)
  {
  }

  lemma BatchFuel(done: State, calls: seq<Call>, spent: Spent, paid: Spent, started: bool, bound: nat)
    requires done.attempts != [] && calls != [] && Last(done).round == done.rounds && Rest(done, spent) >= 0
    requires Last(done).candidate < |done.route|
    requires Inv(BatchOf(done, calls, started, paid), bound)
    requires started ==> paid == Spent(spent.rounds + 1, spent.calls + |calls|)
    ensures Fuel(BatchOf(done, calls, started, paid), bound) < 2 + Rest(done, spent)
  {
  }

  lemma BatchRuns(
    c: Config, done: State, calls: seq<Call>, answer: Answer, r: Reduced, p: Progress, started: bool, paid: Spent)
    requires done.attempts != [] && calls != [] && done.mcp.Some?
    requires r == BeginBatch(done.(rounds := done.rounds + 1), CallingMcp(Last(done).candidate, calls, 0))
    requires Follows(p, r, answer, c.spent)
    requires var reserved := Reserve(c.spent, done.mcp.value, calls);
             started == reserved.Some? && paid == if reserved.Some? then reserved.value else c.spent
    ensures p == Running(BatchOf(done, calls, started, paid))
  {
  }

  lemma ReservePays(spent: Spent, bindings: set<string>, calls: seq<Call>)
    requires Within(spent)
    ensures var reserved := Reserve(spent, bindings, calls);
            reserved.Some? ==> Within(reserved.value) && reserved.value == Spent(spent.rounds + 1, spent.calls + |calls|)
  {
  }

  // Handing a round's calls to the tool runtime: either the budget refuses, or
  // the reservation pays for the batch.
  lemma BatchMoves(c: Config, done: State, calls: seq<Call>, answer: Answer, bound: nat, r: Reduced, p: Progress)
    requires Inv(c, bound) && c.state.phase.CallingProvider? && calls != [] && done.mcp.Some?
    requires Ledger(done) && Engaged(done, HandoffReady)
    requires done == c.state.(attempts := done.attempts) && Last(done).round == done.rounds
    requires Appends(c.state, done) && Rest(done, c.spent) == Rest(c.state, c.spent) >= 0
    requires r == BeginBatch(done.(rounds := done.rounds + 1), CallingMcp(Last(done).candidate, calls, 0))
    requires Follows(p, r, answer, c.spent)
    ensures Moves(c, p, bound)
  {
    var reserved := Reserve(c.spent, done.mcp.value, calls);
    var paid := if reserved.Some? then reserved.value else c.spent;
    ReservePays(c.spent, done.mcp.value, calls);
    BatchRuns(c, done, calls, answer, r, p, reserved.Some?, paid);
    BatchLands(c, done, calls, reserved.Some?, paid, bound);
  }

  lemma BatchLands(c: Config, done: State, calls: seq<Call>, started: bool, paid: Spent, bound: nat)
    requires Inv(c, bound) && c.state.phase.CallingProvider? && calls != [] && done.mcp.Some?
    requires Ledger(done) && Engaged(done, HandoffReady)
    requires done.route == c.state.route && done.rounds == c.state.rounds && Last(done).round == done.rounds
    requires Appends(c.state, done) && Rest(done, c.spent) == Rest(c.state, c.spent) >= 0
    requires Within(paid) && (started ==> paid == Spent(c.spent.rounds + 1, c.spent.calls + |calls|))
    ensures Moves(c, Running(BatchOf(done, calls, started, paid)), bound)
  {
    BatchIsInv(done, calls, started, paid, bound);
    assert Eligible(PlanOf(done), Last(done).candidate);
    BatchFuel(done, calls, c.spent, paid, started, bound);
    AppendsSame(c.state, done, BatchOf(done, calls, started, paid).state);
    MovesTo(c, BatchOf(done, calls, started, paid), bound);
  }

  lemma ResolvingStep(c: Config, edges: Edges, answer: Answer, bound: nat, p: Progress)
    requires Inv(c, bound) && c.state.phase.ResolvingFacts?
    requires p == Step(c, edges, answer)
    ensures Moves(c, p, bound)
  {
    var s := c.state;
    var r := Reduce(s, c.event, edges);
    assert Last(s).failure.Some?;
    EngagedIsSettled(s, Exchange.Failed);
    FailedMoves(s, edges, answer, c.spent, bound, r);
    AppendsSelf(s);
    AppendsMore(s, s, r.value.state);
  }

  lemma EngagedIsSettled(s: State, status: Status)
    requires Engaged(s, status) && status != Calling
    ensures AllSettled(s.attempts)
  {
    forall i | 0 <= i < |s.attempts|
      ensures s.attempts[i].status != Calling
    {
      if i < |s.attempts| - 1 {
        assert s.attempts[..|s.attempts| - 1][i].status != Calling;
      }
    }
  }

  lemma AppendsSelf(s: State)
    ensures Appends(s, s)
  {
  }

  // A new round opens with the same candidate and the preferred form.
  lemma NewRoundIsNew(s: State, selection: Selection)
    requires Ledger(s) && s.attempts != [] && s.rounds == Last(s).round + 1
    ensures !Consumed(s, selection)
  {
    forall i | 0 <= i < |s.attempts|
      ensures s.attempts[i].round != s.rounds
    {
      assert i < |s.attempts| - 1 ==> s.attempts[i].round <= Last(s).round;
    }
  }

  lemma NewRoundIsLawful(s: State, next: Attempt)
    requires Ledger(s) && s.attempts != [] && s.rounds == Last(s).round + 1 && next.round == s.rounds
    requires next.candidate == Last(s).candidate && next.choice == Preferred && next.status == Calling
    requires next.failure.None? && next.generation == s.route[next.candidate]
    ensures Lawful(s.attempts + [next], PlanOf(s))
  {
    assert Eligible(PlanOf(s), Last(s).candidate);
    SuccessorKeepsOrder(s.attempts, next);
    SuccessorKeepsPlan(s.attempts, PlanOf(s), next);
  }

  lemma NewRoundAdvances(s: State, ready: Preparation, r: Reduced)
    requires Ledger(s) && Engaged(s, HandoffReady) && s.rounds == Last(s).round + 1 && ready.Ready?
    requires Last(s).candidate < |s.route| && r == BeginAttempt(s, Selection(Last(s).candidate, Preferred), ready)
    ensures Advanced(s, r) && !Terminal(r.value.state.phase)
  {
    var selection := Selection(Last(s).candidate, Preferred);
    NewRoundIsNew(s, selection);
    NewRoundIsLawful(s, NewAttempt(s, selection, ready));
    assert r.value.state.attempts[..|s.attempts|] == s.attempts;
  }

  // One call of the batch goes out.
  lemma CallMoves(c: Config, phase: Phase, edges: Edges, answer: Answer, bound: nat, r: Reduced, p: Progress)
    requires Inv(c, bound) && c.state.phase.CallingMcp? && c.event != McpBatchStarted(false)
    requires phase.CallingMcp? && phase == c.state.phase.(next := phase.next)
    requires if c.event.McpBatchStarted? then phase.next == c.state.phase.next else phase.next == c.state.phase.next + 1
    requires phase.next < |phase.calls|
    requires r == BeginCall(c.state, phase)
    requires Follows(p, r, answer, c.spent)
    ensures Moves(c, p, bound)
  {
    AppendsSelf(c.state);
  }

  lemma NewRoundMoves(c: Config, edges: Edges, answer: Answer, bound: nat, ready: Preparation, r: Reduced, p: Progress)
    requires Inv(c, bound) && c.state.phase.CallingMcp? && c.event.McpToolReturned? && ready.Ready?
    requires Last(c.state).candidate < |c.state.route|
    requires r == BeginAttempt(c.state, Selection(Last(c.state).candidate, Preferred), ready)
    requires Follows(p, r, answer, c.spent)
    ensures Moves(c, p, bound)
  {
    var s := c.state;
    EngagedIsSettled(s, HandoffReady);
    NewRoundAdvances(s, ready, r);
    var t := r.value.state;
    FlightIsInv(s, t, answer, c.spent, bound);
    AppendsSelf(s);
    AppendsMore(s, s, t);
    NewRoundFuel(s, t, c.spent);
  }

  lemma NewRoundFuel(s: State, t: State, spent: Spent)
    requires s.attempts != [] && |t.attempts| == |s.attempts| + 1 && t.attempts[..|s.attempts|] == s.attempts
    requires t.route == s.route && Last(t).candidate == Last(s).candidate && Last(t).round != Last(s).round
    requires Last(t).round > 0
    ensures 2 + Rest(t, spent) == 3 + Ahead(s, Last(s).candidate, Last(t).round, spent)
  {
    assert t.attempts[|t.attempts| - 2] == t.attempts[..|s.attempts|][|s.attempts| - 1] == Last(s);
  }

  lemma StopMoves(c: Config, edges: Edges, answer: Answer, bound: nat, r: Reduced, p: Progress)
    requires Inv(c, bound) && c.state.phase.CallingMcp?
    requires r == Stop(c.state, Reported)
    requires Follows(p, r, answer, c.spent)
    ensures Moves(c, p, bound)
  {
    EngagedIsSettled(c.state, HandoffReady);
    TerminatedIsDone(c.state, Reported);
    AppendsSelf(c.state);
  }

  lemma ToolStep(c: Config, edges: Edges, answer: Answer, bound: nat, p: Progress)
    requires Inv(c, bound) && c.state.phase.CallingMcp?
    requires p == Step(c, edges, answer)
    ensures Moves(c, p, bound)
  {
    var s, phase := c.state, c.state.phase;
    var r := Reduce(s, c.event, edges);
    assert r == ReduceMcp(s, c.event, edges);
    if !c.event.ok {
      StopMoves(c, edges, answer, bound, r, p);
    } else if c.event.McpBatchStarted? {
      CallMoves(c, phase, edges, answer, bound, r, p);
    } else if phase.next + 1 < |phase.calls| {
      CallMoves(c, phase.(next := phase.next + 1), edges, answer, bound, r, p);
    } else {
      assert Eligible(PlanOf(s), Last(s).candidate);
      var preparation := Prepare(s, Selection(phase.candidate, Preferred), edges);
      if edges.continuation && preparation.Ready? {
        NewRoundMoves(c, edges, answer, bound, preparation, r, p);
      } else {
        StopMoves(c, edges, answer, bound, r, p);
      }
    }
  }

  // ------------------------------------------------------------------ whole runs

  // Every turn of the driver, whatever the world answers, keeps the invariant,
  // only appends to the ledger and lowers the measure; no turn faults.
  lemma StepMoves(c: Config, edges: Edges, answer: Answer, bound: nat)
    requires Inv(c, bound)
    requires Early(c) && edges.route.Some? ==> |edges.route.value| <= bound
    ensures Moves(c, Step(c, edges, answer), bound)
  {
    var p := Step(c, edges, answer);
    match c.state.phase
    case Starting => StartingStep(c, edges, answer, bound, p);
    case LoadingCheckpoint(_) => LoadingStep(c, edges, answer, bound, p);
    case PreparingMcp => PreparingStep(c, edges, answer, bound, p);
    case CallingProvider(_, _) =>
      if c.event.ProviderCallFailed? {
        CallFailedStep(c, edges, answer, bound, p);
      } else {
        IngressStep(c, edges, answer, bound, p);
      }
    case ResolvingFacts(_) => ResolvingStep(c, edges, answer, bound, p);
    case CallingMcp(_, _, _) => ToolStep(c, edges, answer, bound, p);
  }

  // The route plan is fixed in these phases and nowhere later.
  predicate Early(c: Config) {
    c.state.phase.Starting? || c.state.phase.LoadingCheckpoint?
  }

  // A provider that rejected the stored reference before doing anything.
  const INVALID_REFERENCE := Failure(RejectedBeforeExecution, Cause(false, true, false, false, true))

  datatype Turn = Turn(edges: Edges, answer: Answer)

  predicate Fits(turn: Turn, bound: nat) {
    turn.edges.route.Some? ==> |turn.edges.route.value| <= bound
  }

  // Early phases happen in the first two turns only.
  predicate OnTime(c: Config, turn: nat) {
    (c.state.phase.Starting? ==> turn == 0) && (c.state.phase.LoadingCheckpoint? ==> turn <= 1)
  }

  type Driver = (Config, nat) -> Progress

  // One world's driver: the turn number selects what the world does.
  function DriverOf(world: nat -> Turn): Driver {
    (c: Config, turn: nat) => Step(c, world(turn).edges, world(turn).answer)
  }

  // The driver loop, as far as the given number of turns.
  function RunFor(driver: Driver, c: Config, from: nat, turns: nat): Progress
    decreases turns
  {
    if turns == 0 then Running(c)
    else
      match driver(c, from)
      case Running(d) => RunFor(driver, d, from + 1, turns - 1)
      case Done(s) => Done(s)
      case Faulted(violation) => Faulted(violation)
  }

  // A driver conducts when no turn leaves the invariant, every turn spends
  // fuel, and ending is lawful.
  ghost predicate Conducts(driver: Driver, inv: (Config, nat) -> bool, done: State -> bool, fuel: Config -> int) {
    forall c, turn: nat :: ConductsTurn(driver, inv, done, fuel, c, turn)
  }

  predicate ConductsTurn(
    driver: Driver, inv: (Config, nat) -> bool, done: State -> bool, fuel: Config -> int, c: Config, turn: nat)
  {
    inv(c, turn) ==> Conducted(driver(c, turn), inv, done, fuel, turn + 1, fuel(c) - 1)
  }

  predicate Conducted(
    p: Progress, inv: (Config, nat) -> bool, done: State -> bool, fuel: Config -> int, turn: nat, left: int)
  {
    && !p.Faulted?
    && (p.Done? ==> done(p.state))
    && (p.Running? ==> inv(p.config, turn) && fuel(p.config) <= left)
  }

  lemma {:induction false} ConductedRun(
    driver: Driver, inv: (Config, nat) -> bool, done: State -> bool, fuel: Config -> int,
    c: Config, from: nat, turns: nat)
    requires Conducts(driver, inv, done, fuel) && inv(c, from)
    ensures Conducted(RunFor(driver, c, from, turns), inv, done, fuel, from + turns, fuel(c) - turns)
    decreases turns
  {
    if turns > 0 {
      var next := driver(c, from);
      assert ConductsTurn(driver, inv, done, fuel, c, from);
      if next.Running? {
        ConductedRun(driver, inv, done, fuel, next.config, from + 1, turns - 1);
      }
    }
  }

  lemma AppendsChain(s: State, t: State, u: State)
    requires Appends(s, t) && Appends(t, u)
    ensures Appends(s, u)
  {
    forall i | 0 <= i < |s.attempts|
      ensures SameIssue(s.attempts[i], u.attempts[i])
      ensures s.attempts[i].status != Calling ==> u.attempts[i] == s.attempts[i]
    {
      assert SameIssue(s.attempts[i], t.attempts[i]) && SameIssue(t.attempts[i], u.attempts[i]);
    }
  }

  lemma EarlyOnlyFromStart(c: Config, d: Config, bound: nat)
    requires Inv(c, bound) && Moves(c, Running(d), bound)
    ensures Early(d) ==> c.state.phase.Starting?
    ensures !d.state.phase.Starting?
  {
  }

  // Of a run that began at the given state: the machine's invariant, early
  // phases on time, and a ledger that only grew.
  predicate Sound(start: State, bound: nat, c: Config, turn: nat) {
    Inv(c, bound) && OnTime(c, turn) && Appends(start, c.state)
  }

  predicate SoundEnd(start: State, s: State) {
    DoneInv(s) && Appends(start, s)
  }

  function FuelOf(c: Config, bound: nat): int {
    if Inv(c, bound) then Fuel(c, bound) else 0
  }

  // Never faulted; lawful if ended; sound and with at most this much fuel left
  // if still running.
  predicate SoundProgress(start: State, bound: nat, p: Progress, turn: nat, left: int) {
    && !p.Faulted?
    && (p.Done? ==> SoundEnd(start, p.state))
    && (p.Running? ==> Sound(start, bound, p.config, turn) && FuelOf(p.config, bound) <= left)
  }

  lemma SoundTurn(start: State, world: nat -> Turn, bound: nat, c: Config, turn: nat, p: Progress)
    requires Fits(world(0), bound) && Fits(world(1), bound) && Sound(start, bound, c, turn)
    requires p == Step(c, world(turn).edges, world(turn).answer)
    ensures SoundProgress(start, bound, p, turn + 1, FuelOf(c, bound) - 1)
  {
    StepMoves(c, world(turn).edges, world(turn).answer, bound);
    StaysSound(start, bound, c, turn, p);
  }

  lemma StaysSound(start: State, bound: nat, c: Config, turn: nat, p: Progress)
    requires Sound(start, bound, c, turn) && Moves(c, p, bound)
    ensures SoundProgress(start, bound, p, turn + 1, FuelOf(c, bound) - 1)
  {
    if p.Running? {
      EarlyOnlyFromStart(c, p.config, bound);
    }
    AppendsChain(start, c.state, if p.Done? then p.state else p.config.state);
  }

  function SoundInv(start: State, bound: nat): (Config, nat) -> bool {
    (c: Config, turn: nat) => Sound(start, bound, c, turn)
  }

  function SoundDone(start: State): State -> bool {
    (s: State) => SoundEnd(start, s)
  }

  function SoundFuel(bound: nat): Config -> int {
    (c: Config) => FuelOf(c, bound)
  }

  lemma SoundIsConducted(start: State, bound: nat, p: Progress, turn: nat, left: int)
    ensures Conducted(p, SoundInv(start, bound), SoundDone(start), SoundFuel(bound), turn, left)
            <==> SoundProgress(start, bound, p, turn, left)
  {
  }

  lemma EveryWorldConducts(start: State, world: nat -> Turn, bound: nat)
    requires Fits(world(0), bound) && Fits(world(1), bound)
    ensures Conducts(DriverOf(world), SoundInv(start, bound), SoundDone(start), SoundFuel(bound))
  {
    forall c, turn: nat
      ensures ConductsTurn(DriverOf(world), SoundInv(start, bound), SoundDone(start), SoundFuel(bound), c, turn)
    {
      WorldTurn(start, world, bound, c, turn);
    }
  }

  lemma WorldTurn(start: State, world: nat -> Turn, bound: nat, c: Config, turn: nat)
    requires Fits(world(0), bound) && Fits(world(1), bound)
    ensures ConductsTurn(DriverOf(world), SoundInv(start, bound), SoundDone(start), SoundFuel(bound), c, turn)
  {
    if Sound(start, bound, c, turn) {
      var p := Step(c, world(turn).edges, world(turn).answer);
      SoundTurn(start, world, bound, c, turn, p);
      SoundIsConducted(start, bound, p, turn + 1, FuelOf(c, bound) - 1);
    }
  }

  // Every run, from any sound configuration and in any world, stays sound,
  // never faults and spends fuel at every turn.
  lemma RunLaw(start: State, world: nat -> Turn, bound: nat, c: Config, from: nat, turns: nat, p: Progress)
    requires Fits(world(0), bound) && Fits(world(1), bound) && Sound(start, bound, c, from)
    requires p == RunFor(DriverOf(world), c, from, turns)
    ensures SoundProgress(start, bound, p, from + turns, FuelOf(c, bound) - turns)
  {
    EveryWorldConducts(start, world, bound);
    ConductedRun(DriverOf(world), SoundInv(start, bound), SoundDone(start), SoundFuel(bound), c, from, turns);
    SoundIsConducted(start, bound, p, from + turns, FuelOf(c, bound) - turns);
  }

  function PlanBound(turn: Turn): nat {
    if turn.edges.route.Some? then |turn.edges.route.value| else 0
  }

  lemma InitialIsSound(previous: Previous, rebased: bool, backoff: set<Target>, bound: nat)
    ensures var c := Initial(previous, rebased, backoff);
            Sound(c.state, bound, c, 0) && FuelOf(c, bound) == 4 * bound + 43
  {
  }

  // No world makes the machine break one of its own invariants, and every
  // state a run ends in is lawful.
  lemma NoRunFaults(previous: Previous, rebased: bool, backoff: set<Target>, world: nat -> Turn, turns: nat)
    ensures var p := RunFor(DriverOf(world), Initial(previous, rebased, backoff), 0, turns);
            !p.Faulted? && (p.Done? ==> DoneInv(p.state))
  {
    var bound := PlanBound(world(0)) + PlanBound(world(1));
    var c := Initial(previous, rebased, backoff);
    InitialIsSound(previous, rebased, backoff, bound);
    RunLaw(c.state, world, bound, c, 0, turns, RunFor(DriverOf(world), c, 0, turns));
  }

  // Every exchange run ends: within 4n + 43 turns for a plan of n targets,
  // whatever the world does.
  lemma EveryRunEnds(previous: Previous, rebased: bool, backoff: set<Target>, world: nat -> Turn, bound: nat, turns: nat)
    requires Fits(world(0), bound) && Fits(world(1), bound)
    requires turns >= 4 * bound + 43
    ensures RunFor(DriverOf(world), Initial(previous, rebased, backoff), 0, turns).Done?
  {
    var c := Initial(previous, rebased, backoff);
    InitialIsSound(previous, rebased, backoff, bound);
    var p := RunFor(DriverOf(world), c, 0, turns);
    RunLaw(c.state, world, bound, c, 0, turns, p);
    if p.Running? {
      FuelIsPositive(p.config, bound);
    }
  }

  // The ledger of any state a run passes through or ends in: no operation twice,
  // no candidate more than twice in a round, and the last attempt alone is in
  // flight, exactly while a provider is being called.
  predicate OneInFlight(s: State) {
    && (s.phase.CallingProvider? <==> s.attempts != [] && Last(s).status == Calling)
    && (s.attempts != [] ==> AllSettled(s.attempts[..|s.attempts| - 1]))
  }

  lemma RunningInFlight(c: Config, bound: nat)
    requires Inv(c, bound)
    ensures OneInFlight(c.state)
  {
  }

  lemma DoneInFlight(s: State)
    requires DoneInv(s) && Terminal(s.phase)
    ensures OneInFlight(s)
  {
    if s.attempts != [] {
      assert forall i :: 0 <= i < |s.attempts| - 1 ==> s.attempts[..|s.attempts| - 1][i] == s.attempts[i];
      assert Last(s).status != Calling;
    }
  }

  lemma {:induction false} RunEndsTerminal(driver: Driver, world: nat -> Turn, c: Config, from: nat, turns: nat, s: State)
    requires driver == DriverOf(world) && RunFor(driver, c, from, turns) == Done(s)
    ensures Terminal(s.phase)
    decreases turns
  {
    var next := Step(c, world(from).edges, world(from).answer);
    if next.Running? {
      RunEndsTerminal(driver, world, next.config, from + 1, turns - 1, s);
    }
  }

  ghost predicate OnceOnly(s: State) {
    && (forall i, j :: 0 <= i < j < |s.attempts| ==>
          !(SamePair(s.attempts[i], s.attempts[j]) && s.attempts[i].choice == s.attempts[j].choice))
    && (forall candidate: nat, round: nat :: DispatchCount(s.attempts, candidate, round) <= 2)
  }

  lemma LedgerIsOnceOnly(s: State)
    requires Ledger(s)
    ensures OnceOnly(s)
  {
    forall i, j | 0 <= i < j < |s.attempts|
      ensures !(SamePair(s.attempts[i], s.attempts[j]) && s.attempts[i].choice == s.attempts[j].choice)
    {
      DispatchedOnce(s.attempts, i, j);
    }
    forall candidate: nat, round: nat ensures DispatchCount(s.attempts, candidate, round) <= 2 {
      AtMostTwoDispatches(s.attempts, candidate, round);
    }
  }

  predicate Reaches(p: Progress, s: State) {
    p == Done(s) || (p.Running? && p.config.state == s)
  }

  // Every state of every run has a lawful ledger: fallback in plan order over
  // unsuppressed targets only, nothing dispatched twice, one call in flight.
  lemma EveryStateIsLawful(
    previous: Previous, rebased: bool, backoff: set<Target>, world: nat -> Turn, turns: nat, s: State)
    requires Reaches(RunFor(DriverOf(world), Initial(previous, rebased, backoff), 0, turns), s)
    ensures Ledger(s) && OnceOnly(s) && OneInFlight(s)
  {
    var bound := PlanBound(world(0)) + PlanBound(world(1));
    var c := Initial(previous, rebased, backoff);
    var p := RunFor(DriverOf(world), c, 0, turns);
    InitialIsSound(previous, rebased, backoff, bound);
    RunLaw(c.state, world, bound, c, 0, turns, p);
    if p.Running? {
      RunningInFlight(p.config, bound);
    } else {
      RunEndsTerminal(DriverOf(world), world, c, 0, turns, s);
      DoneInFlight(s);
    }
    LedgerIsOnceOnly(s);
  }

  lemma {:induction false} RunSplits(driver: Driver, c: Config, from: nat, k: nat, turns: nat, d: Config)
    requires RunFor(driver, c, from, k) == Running(d)
    ensures RunFor(driver, c, from, k + turns) == RunFor(driver, d, from + k, turns)
    decreases k
  {
    if k > 0 {
      RunSplits(driver, driver(c, from).config, from + 1, k - 1, turns, d);
    }
  }

  lemma RunExtends(driver: Driver, c: Config, k: nat, d: Config)
    requires RunFor(driver, c, 0, k) == Running(d)
    ensures RunFor(driver, c, 0, k + 1) == driver(d, k)
  {
    RunSplits(driver, c, 0, k, 1, d);
    assert RunFor(driver, d, k, 1) == driver(d, k) by {
      if driver(d, k).Running? {
        assert RunFor(driver, driver(d, k).config, k + 1, 0) == driver(d, k);
      }
    }
  }

  lemma GrowsFrom(world: nat -> Turn, bound: nat, d: Config, k: nat, turns: nat, p: Progress, s: State)
    requires Fits(world(0), bound) && Fits(world(1), bound) && Inv(d, bound) && OnTime(d, k)
    requires p == RunFor(DriverOf(world), d, k, turns) && Reaches(p, s)
    ensures Appends(d.state, s)
  {
    AppendsSelf(d.state);
    RunLaw(d.state, world, bound, d, k, turns, p);
    SoundReaches(d.state, bound, p, k + turns, FuelOf(d, bound) - turns, s);
  }

  lemma RunningIsInv(
    previous: Previous, rebased: bool, backoff: set<Target>, world: nat -> Turn, bound: nat, k: nat, d: Config)
    requires Fits(world(0), bound) && Fits(world(1), bound)
    requires RunFor(DriverOf(world), Initial(previous, rebased, backoff), 0, k) == Running(d)
    ensures Inv(d, bound) && OnTime(d, k)
  {
    var c := Initial(previous, rebased, backoff);
    InitialIsSound(previous, rebased, backoff, bound);
    RunLaw(c.state, world, bound, c, 0, k, Running(d));
  }

  // The ledger is append-only: what was issued stays issued, and what was
  // settled stays as it settled, for the rest of the run.
  lemma LedgerOnlyGrows(
    previous: Previous, rebased: bool, backoff: set<Target>, world: nat -> Turn, k: nat, turns: nat, d: Config, s: State)
    requires RunFor(DriverOf(world), Initial(previous, rebased, backoff), 0, k) == Running(d)
    requires Reaches(RunFor(DriverOf(world), Initial(previous, rebased, backoff), 0, k + turns), s)
    ensures Appends(d.state, s)
  {
    var bound := PlanBound(world(0)) + PlanBound(world(1));
    RunningIsInv(previous, rebased, backoff, world, bound, k, d);
    RunSplits(DriverOf(world), Initial(previous, rebased, backoff), 0, k, turns, d);
    GrowsFrom(world, bound, d, k, turns, RunFor(DriverOf(world), d, k, turns), s);
  }

  lemma SoundReaches(start: State, bound: nat, p: Progress, turn: nat, left: int, s: State)
    requires SoundProgress(start, bound, p, turn, left) && Reaches(p, s)
    ensures Appends(start, s) && Ledger(s)
  {
  }

  const TRANSITION_LIMIT: nat := 1000

  datatype RunResult = Finished(state: State) | Violated(violation: Violation) | LimitReached

  function ResultOf(p: Progress): RunResult {
    match p
    case Running(_) => LimitReached
    case Done(s) => Finished(s)
    case Faulted(violation) => Violated(violation)
  }

  // The driver loop with its cut-off.
  method Drive(driver: Driver, start: Config) returns (r: RunResult)
    ensures r == ResultOf(RunFor(driver, start, 0, TRANSITION_LIMIT))
  {
    var current := start;
    for steps := 0 to TRANSITION_LIMIT
      invariant RunFor(driver, start, 0, TRANSITION_LIMIT) == RunFor(driver, current, steps, TRANSITION_LIMIT - steps)
    {
      match driver(current, steps) {
        case Done(s) => return Finished(s);
        case Faulted(violation) => return Violated(violation);
        case Running(next) => current := next;
      }
    }
    return LimitReached;
  }

  // One exchange. No world makes it break an invariant, and plans of at most
  // 239 targets never meet the transition limit.
  method RunExchange(previous: Previous, rebased: bool, backoff: set<Target>, world: nat -> Turn)
    returns (r: RunResult)
    ensures r == ResultOf(RunFor(DriverOf(world), Initial(previous, rebased, backoff), 0, TRANSITION_LIMIT))
    ensures !r.Violated?
    ensures r.Finished? ==> DoneInv(r.state)
    ensures Fits(world(0), 239) && Fits(world(1), 239) ==> r.Finished?
  {
    NoRunFaults(previous, rebased, backoff, world, TRANSITION_LIMIT);
    if Fits(world(0), 239) && Fits(world(1), 239) {
      EveryRunEnds(previous, rebased, backoff, world, 239, TRANSITION_LIMIT);
    }
    r := Drive(DriverOf(world), Initial(previous, rebased, backoff));
  }

  // ------------------------------------------------------------ routing evidence

  datatype RoutingEvidence = RoutingEvidence(calls: nat, recovered: bool, possibleDuplicate: bool)

  // An earlier call may have executed although a later one was issued.
  predicate MayHaveRunTwice(attempts: seq<Attempt>) {
    exists i :: 0 <= i < |attempts| - 1
      && attempts[i].failure.Some? && attempts[i].failure.value.execution == MayHaveOccurred
  }

  method SummarizeRoutingEvidence(attempts: seq<Attempt>, evaluated: nat, completed: bool)
    returns (evidence: RoutingEvidence)
    ensures evidence == RoutingEvidence(|attempts|, completed && evaluated > 1, MayHaveRunTwice(attempts))
  {
    evidence := RoutingEvidence(|attempts|, completed && evaluated > 1, false);
    for index := 0 to |attempts|
      invariant evidence == RoutingEvidence(|attempts|, completed && evaluated > 1, false)
      invariant forall i :: 0 <= i < index && i < |attempts| - 1 ==>
                  !(attempts[i].failure.Some? && attempts[i].failure.value.execution == MayHaveOccurred)
    {
      if index + 1 < |attempts| && attempts[index].failure.Some?
         && attempts[index].failure.value.execution == MayHaveOccurred
      {
        evidence := evidence.(possibleDuplicate := true);
        break;
      }
    }
  }

  // The evaluated count tells the truth about recovery: a completed run is
  // reported as recovered exactly when the target that answered was not the
  // first of the plan.
  lemma RecoveryIsTruthful(
    previous: Previous, rebased: bool, backoff: set<Target>, world: nat -> Turn, turns: nat, s: State)
    requires RunFor(DriverOf(world), Initial(previous, rebased, backoff), 0, turns) == Done(s)
    requires s.phase.Completed?
    ensures s.attempts != [] && Last(s).status == HandoffReady
    ensures s.evaluated > 1 <==> Last(s).candidate > 0
  {
    NoRunFaults(previous, rebased, backoff, world, turns);
  }

  // A run that reached provider selection is told that no target is available
  // exactly when the plan is non-empty and wholly suppressed.
  lemma NoAvailableTargetIsExact(
    previous: Previous, rebased: bool, backoff: set<Target>, world: nat -> Turn, turns: nat, s: State)
    requires RunFor(DriverOf(world), Initial(previous, rebased, backoff), 0, turns) == Done(s)
    ensures s.phase == Exchange.Ended(NoAvailableTarget) <==> s.prepared && WhollySuppressed(s)
  {
    NoRunFaults(previous, rebased, backoff, world, turns);
  }
}
