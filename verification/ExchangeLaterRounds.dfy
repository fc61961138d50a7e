// Provider rounds after the first: when a failed call is followed by an attempt on
// another candidate.
module ExchangeLaterRounds {
  import opened Wrappers
  import opened Exchange
  import opened ExchangeLaws
  import opened ExchangeRuns

  // The first eligible candidate past from that can be prepared, every eligible
  // one before it being unavailable.
  predicate FirstReady(plan: Plan, edges: Edges, from: nat, j: nat) {
    && from < j && Eligible(plan, j) && edges.prepare(Selection(j, Preferred)).Ready?
    && forall i :: from < i < j && Eligible(plan, i) ==> edges.prepare(Selection(i, Preferred)).Unavailable?
  }

  // The reduction dispatched one attempt, on candidate j.
  predicate LandsOn(s: State, r: Reduced, j: nat) {
    r.Ok? && |r.value.state.attempts| == |s.attempts| + 1 && Last(r.value.state).candidate == j
  }

  // Where the walk from a selection lands.
  predicate Lands(plan: Plan, edges: Edges, selection: Selection, j: nat) {
    if j == selection.candidate then edges.prepare(selection).Ready?
    else edges.prepare(selection).Unavailable? && FirstReady(plan, edges, selection.candidate, j)
  }

  // The walk from the next eligible candidate is the rest of this one.
  lemma LandsLater(plan: Plan, later: Plan, edges: Edges, from: nat, next: Selection, j: nat)
    requires later.route == plan.route && later.backoff == plan.backoff
    requires from < next.candidate && next.choice == Preferred && Eligible(later, next.candidate)
    requires forall i :: from + 1 <= i < next.candidate ==> !Eligible(later, i)
    ensures Lands(later, edges, next, j) <==> FirstReady(plan, edges, from, j)
  {
    assert forall i: nat :: Eligible(later, i) <==> Eligible(plan, i);
    if Lands(later, edges, next, j) {
      assert FirstReady(plan, edges, from, j);
    }
    if FirstReady(plan, edges, from, j) {
      assert next.candidate <= j;
      assert next.candidate < j ==> edges.prepare(Selection(next.candidate, Preferred)).Unavailable?;
    }
  }

  lemma {:induction false} WalkLands(s: State, selection: Selection, edges: Edges, r: Reduced, j: nat)
    requires Ledger(s) && AllSettled(s.attempts) && Selectable(s, selection)
    requires s.evaluated <= selection.candidate + 1
    requires r == AdvanceFrom(s, selection, edges)
    ensures LandsOn(s, r, j) <==> Lands(PlanOf(s), edges, selection, j)
    decreases |s.route| - selection.candidate
  {
    if edges.prepare(selection).Ready? {
      ReadyLands(s, selection, edges, r, j);
    } else if edges.prepare(selection).Unavailable? {
      UnavailableLands(s, selection, edges, r, j);
    }
  }

  lemma ReadyLands(s: State, selection: Selection, edges: Edges, r: Reduced, j: nat)
    requires Ledger(s) && Selectable(s, selection) && s.evaluated <= selection.candidate + 1
    requires r == AdvanceFrom(s, selection, edges) && edges.prepare(selection).Ready?
    ensures LandsOn(s, r, j) <==> j == selection.candidate
  {
    SelectableNotConsumed(s, selection);
    assert Consumed(Evaluated(s, selection), selection) == Consumed(s, selection);
  }

  lemma {:induction false} UnavailableLands(s: State, selection: Selection, edges: Edges, r: Reduced, j: nat)
    requires Ledger(s) && AllSettled(s.attempts) && Selectable(s, selection)
    requires s.evaluated <= selection.candidate + 1
    requires r == AdvanceFrom(s, selection, edges) && edges.prepare(selection).Unavailable?
    ensures LandsOn(s, r, j) <==> FirstReady(PlanOf(s), edges, selection.candidate, j)
    decreases |s.route| - selection.candidate, 0
  {
    var passed := s.(evaluated := selection.candidate + 1, skipped := s.skipped + {selection.candidate});
    SkipKeepsLaw(s.attempts, PlanOf(s), selection.candidate);
    NextEligibleInPlan(passed, selection.candidate + 1);
    AdvanceSkips(s, selection, edges, passed, r);
    var next := NextEligible(passed, selection.candidate + 1);
    if next.Some? {
      StaysSelectable(s.attempts, PlanOf(s), s.rounds, selection, next.value, PlanOf(passed));
      WalkLands(passed, next.value, edges, r, j);
      LandsLater(PlanOf(s), PlanOf(passed), edges, selection.candidate, next.value, j);
    } else {
      NoneLater(s, passed, selection.candidate + 1);
    }
  }

  lemma NoneLater(s: State, passed: State, start: nat)
    requires passed.route == s.route && passed.backoff == s.backoff && NextEligible(passed, start).None?
    ensures forall i :: start <= i ==> !Eligible(PlanOf(s), i)
  {
    forall i | start <= i ensures !Eligible(PlanOf(s), i) {
      assert i < |s.route| ==> Suppressed(passed, i);
    }
  }

  // ------------------------------------------------------------- in one turn

  predicate MovesOnTo(c: Config, p: Progress, j: nat) {
    p.Running? && |p.config.state.attempts| == |c.state.attempts| + 1 && Last(p.config.state).candidate == j
  }

  // The call failed in a way that admits one retry with full history.
  predicate RetryAdmitted(s: State, event: Event)
    requires s.attempts != []
  {
    event.ProviderCallFailed? && SoleDispatch(s.attempts)
    && AdmitsFullHistory(Last(s).(status := Exchange.Failed, failure := Some(event.failure)))
  }

  // After a failure in a later round the reducer walks from the full-history retry
  // or stops.
  lemma LaterFailureWalks(failed: State, edges: Edges, r: Reduced)
    requires Ledger(failed) && failed.attempts != [] && Last(failed).status == Exchange.Failed && Last(failed).round > 0
    requires failed.prepared && CanTerminate(failed) && r == Advance(failed, edges)
    ensures if SoleDispatch(failed.attempts) && AdmitsFullHistory(Last(failed))
            then r == AdvanceFrom(failed, Selection(Last(failed).candidate, FullHistory), edges)
            else r.Ok? && r.value.state.attempts == failed.attempts
  {
    CountAtLast(failed.attempts);
  }

  lemma LaterFailureLands(failed: State, edges: Edges, r: Reduced, j: nat)
    requires Ledger(failed) && Engaged(failed, Exchange.Failed) && AllSettled(failed.attempts)
    requires Last(failed).round == failed.rounds > 0 && CanTerminate(failed) && r == Advance(failed, edges)
    requires j != Last(failed).candidate
    ensures LandsOn(failed, r, j) <==>
            && SoleDispatch(failed.attempts) && AdmitsFullHistory(Last(failed))
            && edges.prepare(Selection(Last(failed).candidate, FullHistory)).Unavailable?
            && FirstReady(PlanOf(failed), edges, Last(failed).candidate, j)
  {
    LaterFailureWalks(failed, edges, r);
    if SoleDispatch(failed.attempts) && AdmitsFullHistory(Last(failed)) {
      var selection := Selection(Last(failed).candidate, FullHistory);
      assert Eligible(PlanOf(failed), Last(failed).candidate);
      assert Selectable(failed, selection);
      WalkLands(failed, selection, edges, r, j);
    }
  }

  // A failing turn moves on exactly as the reduction of the failed state lands.
  lemma FailedTurn(c: Config, edges: Edges, answer: Answer, bound: nat, p: Progress, failed: State, r: Reduced, j: nat)
    requires Inv(c, bound) && c.state.phase.CallingProvider?
    requires Ledger(failed) && Engaged(failed, Exchange.Failed) && AllSettled(failed.attempts)
    requires SameExchange(c.state, failed) && Last(failed).round == failed.rounds
    requires |failed.attempts| == |c.state.attempts| && CanTerminate(failed) && r == Advance(failed, edges)
    requires Follows(p, r, answer, c.spent)
    ensures MovesOnTo(c, p, j) <==> LandsOn(failed, r, j)
  {
    if SelectNext(failed).Some? {
      SelectNextIsSelectable(failed);
      AdvanceFromAdvances(failed, SelectNext(failed).value, edges, r);
    }
  }

  lemma DecodedStays(c: Config, edges: Edges, answer: Answer, bound: nat, p: Progress, j: nat)
    requires Inv(c, bound) && c.state.phase.CallingProvider? && p == Step(c, edges, answer)
    requires c.event.ProviderIngressReceived? && c.event.completion.Decoded?
    ensures !MovesOnTo(c, p, j)
  {
  }

  // After a call failed in a round past the first, the next attempt is on another
  // candidate exactly when a full-history retry was admitted, preparing it found
  // the target unavailable, and a later candidate could be prepared before any
  // broke.
  lemma LaterRoundMovesOnExactlyWhen(c: Config, edges: Edges, answer: Answer, bound: nat, p: Progress, j: nat)
    requires Inv(c, bound) && c.state.phase.CallingProvider? && c.state.rounds > 0
    requires p == Step(c, edges, answer) && j != Last(c.state).candidate
    ensures MovesOnTo(c, p, j) <==>
            && RetryAdmitted(c.state, c.event)
            && edges.prepare(Selection(Last(c.state).candidate, FullHistory)).Unavailable?
            && FirstReady(PlanOf(c.state), edges, Last(c.state).candidate, j)
  {
    if c.event.ProviderIngressReceived? && c.event.completion.Decoded? {
      DecodedStays(c, edges, answer, bound, p, j);
    } else {
      var failure :=
        if c.event.ProviderCallFailed? then c.event.failure else Failure(MayHaveOccurred, c.event.completion.cause);
      LaterFailureMoves(c, edges, answer, bound, p, failure, j);
    }
  }

  lemma LaterFailureMoves(c: Config, edges: Edges, answer: Answer, bound: nat, p: Progress, failure: Failure, j: nat)
    requires Inv(c, bound) && c.state.phase.CallingProvider? && c.state.rounds > 0
    requires p == Step(c, edges, answer) && j != Last(c.state).candidate
    requires || (c.event.ProviderCallFailed? && failure == c.event.failure)
             || (&& c.event.ProviderIngressReceived? && c.event.completion.Undecodable?
                 && failure == Failure(MayHaveOccurred, c.event.completion.cause))
    ensures MovesOnTo(c, p, j) <==>
            && RetryAdmitted(c.state, c.event)
            && edges.prepare(Selection(Last(c.state).candidate, FullHistory)).Unavailable?
            && FirstReady(PlanOf(c.state), edges, Last(c.state).candidate, j)
  {
    var s := c.state;
    var outcome := Last(s).(status := Exchange.Failed, failure := Some(failure));
    var failed := s.(attempts := s.attempts[|s.attempts| - 1 := outcome]);
    SettledPosition(s, outcome, failed, c.spent);
    assert FailAttempt(s, s.phase.id, failure) == Ok(failed);
    var r := Reduce(s, c.event, edges);
    assert r == Advance(failed, edges);
    FailedTurn(c, edges, answer, bound, p, failed, r, j);
    LaterFailureLands(failed, edges, r, j);
    assert SoleDispatch(failed.attempts) == SoleDispatch(s.attempts);
  }

  // ------------------------------------------------------------- such a run exists

  // Two targets, each prepared with a stored reference; the first answers once
  // with a tool call, rejects the reference in the second round, and is
  // unavailable for the retry.
  const TOOL_CALL := [Call("t", false)]

  function MovingEdges(a: Target, b: Target): Edges {
    Edges(true, Some([a, b]), true, true,
          (selection: Selection) => if selection == Selection(0, FullHistory) then Unavailable else Ready(true, map[], false))
  }

  function MovingAnswer(turn: nat): Answer {
    Answer(None, Some(Some({"t"})), if turn == 1 then Ok(Decoded(TOOL_CALL, false)) else Err(INVALID_REFERENCE), map[], true)
  }

  function MovingWorld(a: Target, b: Target): nat -> Turn {
    (turn: nat) => Turn(MovingEdges(a, b), MovingAnswer(turn))
  }

  function MovingStart(): Config {
    Initial(NoPrevious, false, {})
  }

  function MovingState(a: Target, b: Target, rounds: nat, attempts: seq<Attempt>, phase: Phase): State {
    State(NoPrevious, false, [a, b], {}, false, true, Some({"t"}), rounds, attempts, 1, phase, {})
  }

  function FirstCall(a: Target, round: nat, status: Status): Attempt {
    Attempt(0, Preferred, round, true, a, map[], status, None)
  }

  // Where the run stands after each of its first five turns.
  function MovingAt(a: Target, b: Target, turn: nat): Config
    requires 1 <= turn <= 5
  {
    if turn == 1 then
      Config(State(NoPrevious, false, [a, b], {}, true, false, None, 0, [], 0, PreparingMcp, {}),
             McpPrepared(Some(Some({"t"}))), Spent(0, 0))
    else if turn == 2 then
      Config(MovingState(a, b, 0, [FirstCall(a, 0, Calling)], CallingProvider(1, true)),
             ProviderIngressReceived(1, Decoded(TOOL_CALL, false)), Spent(0, 0))
    else if turn < 5 then
      Config(MovingState(a, b, 1, [FirstCall(a, 0, HandoffReady)], CallingMcp(0, TOOL_CALL, 0)),
             if turn == 3 then McpBatchStarted(true) else McpToolReturned(true), Spent(1, 1))
    else
      Config(MovingState(a, b, 1, [FirstCall(a, 0, HandoffReady), FirstCall(a, 1, Calling)], CallingProvider(2, true)),
             ProviderCallFailed(2, INVALID_REFERENCE), Spent(1, 1))
  }

  lemma MovingFirstCall(a: Target, b: Target)
    ensures Step(MovingAt(a, b, 1), MovingEdges(a, b), MovingAnswer(1)) == Running(MovingAt(a, b, 2))
  {
    var s := MovingAt(a, b, 1).state.(drafted := false, prepared := true, mcp := Some({"t"}));
    assert NextEligible(s, 0) == Some(Selection(0, Preferred));
  }

  lemma MovingToolCall(a: Target, b: Target)
    ensures Step(MovingAt(a, b, 2), MovingEdges(a, b), MovingAnswer(2)) == Running(MovingAt(a, b, 3))
  {
    var c := MovingAt(a, b, 2);
    var done := c.state.(attempts := [FirstCall(a, 0, HandoffReady)]);
    var r := Reduce(c.state, c.event, MovingEdges(a, b));
    assert c.state.attempts[0 := FirstCall(a, 0, HandoffReady)] == done.attempts;
    assert CompleteAttempt(c.state, 1) == Ok(done);
    ToolIsRemote();
    IngressReduces(c.state, done, Decoded(TOOL_CALL, false), MovingEdges(a, b), r);
    ToolIsGranted(c, done, MovingAnswer(2), r, Step(c, MovingEdges(a, b), MovingAnswer(2)));
  }

  lemma ToolIsRemote()
    ensures Classify(Some({"t"}), TOOL_CALL) == Some(TOOL_CALL)
  {
    assert TOOL_CALL[..0] == [];
    assert RemoteCalls({"t"}, TOOL_CALL) == TOOL_CALL;
    assert !CallerOwned({"t"}, TOOL_CALL[0]);
  }

  lemma ToolIsGranted(c: Config, done: State, answer: Answer, r: Reduced, p: Progress)
    requires done.attempts != [] && done.mcp == Some({"t"}) && c.spent == Spent(0, 0)
    requires r == BeginBatch(done.(rounds := done.rounds + 1), CallingMcp(Last(done).candidate, TOOL_CALL, 0))
    requires Follows(p, r, answer, c.spent)
    ensures p == Running(BatchOf(done, TOOL_CALL, true, Spent(1, 1)))
  {
    assert Reserve(c.spent, {"t"}, TOOL_CALL) == Some(Spent(1, 1));
    BatchRuns(c, done, TOOL_CALL, answer, r, p, true, Spent(1, 1));
  }

  lemma MovingSecondRound(a: Target, b: Target)
    ensures Step(MovingAt(a, b, 3), MovingEdges(a, b), MovingAnswer(3)) == Running(MovingAt(a, b, 4))
    ensures Step(MovingAt(a, b, 4), MovingEdges(a, b), MovingAnswer(4)) == Running(MovingAt(a, b, 5))
  {
    var s := MovingAt(a, b, 4).state;
    assert !Consumed(s, Selection(0, Preferred));
    assert s.attempts + [FirstCall(a, 1, Calling)] == MovingAt(a, b, 5).state.attempts;
  }

  lemma MovingSteps(a: Target, b: Target, turn: nat)
    requires 1 <= turn <= 5
    ensures RunFor(DriverOf(MovingWorld(a, b)), MovingStart(), 0, turn) == Running(MovingAt(a, b, turn))
  {
    var driver := DriverOf(MovingWorld(a, b));
    if turn == 1 {
      assert Step(MovingStart(), MovingEdges(a, b), MovingAnswer(0)) == Running(MovingAt(a, b, 1));
      assert driver(MovingStart(), 0) == Running(MovingAt(a, b, 1));
    } else {
      MovingSteps(a, b, turn - 1);
      MovingFirstCall(a, b);
      MovingToolCall(a, b);
      MovingSecondRound(a, b);
      RunExtends(driver, MovingStart(), turn - 1, MovingAt(a, b, turn - 1));
    }
  }

  // Whatever the two targets are, in the sixth turn of this run the second
  // provider round leaves the candidate it began with.
  lemma LaterRoundCanMoveOn(a: Target, b: Target) returns (c: Config, p: Progress)
    ensures RunFor(DriverOf(MovingWorld(a, b)), MovingStart(), 0, 5) == Running(c)
    ensures RunFor(DriverOf(MovingWorld(a, b)), MovingStart(), 0, 6) == p
    ensures c.state.phase.CallingProvider? && c.state.rounds == 1 && c.state.attempts != [] && Last(c.state).candidate == 0
    ensures MovesOnTo(c, p, 1)
  {
    c := MovingAt(a, b, 5);
    MovingSteps(a, b, 5);
    p := Step(c, MovingEdges(a, b), MovingAnswer(5));
    RunExtends(DriverOf(MovingWorld(a, b)), MovingStart(), 5, c);
    RunningIsInv(NoPrevious, false, {}, MovingWorld(a, b), 2, 5, c);
    LaterRoundMovesOnExactlyWhen(c, MovingEdges(a, b), MovingAnswer(5), 2, p, 1);
  }
}
