// How long a run can be: for every plan there is a world in which a run takes
// exactly as many turns as the bound allows.
module ExchangeSharpness {
  import opened Wrappers
  import opened Exchange
  import opened ExchangeLaws
  import opened ExchangeRuns

  // ------------------------------------------------------------ the slow world

  // Every call is rejected over its stored reference, with facts that turn out
  // changed, until the last candidate has been tried again; then that candidate
  // asks for two tool calls in every round, after one more rejection each time.
  const FACTS := map["f" := true]
  const READY := Ready(true, FACTS, false)
  const TOOL := Call("t", false)
  const TOOL_CALLS := [TOOL, TOOL]

  // The turn at which the last candidate's first call fails.
  function LastTurn(n: nat): int {
    4 * n - 1
  }

  predicate Answers(n: nat, turn: nat) {
    turn > LastTurn(n) && (turn - LastTurn(n)) % 5 == 1
  }

  function SlowEdges(plan: seq<Target>): Edges {
    Edges(true, Some(plan), true, true, (selection: Selection) => READY)
  }

  function SlowAnswer(answers: bool): Answer {
    Answer(Some(true), Some(Some({"t"})),
           if answers then Ok(Decoded(TOOL_CALLS, false)) else Err(INVALID_REFERENCE),
           map["f" := false], true)
  }

  function SlowTurn(plan: seq<Target>, turn: nat): Turn {
    Turn(SlowEdges(plan), SlowAnswer(Answers(|plan|, turn)))
  }

  function SlowWorld(plan: seq<Target>): nat -> Turn {
    (turn: nat) => SlowTurn(plan, turn)
  }

  function Start(): Config {
    Initial(NamedPrevious, false, {})
  }

  function SlowRun(plan: seq<Target>, turns: nat): Progress {
    RunFor(DriverOf(SlowWorld(plan)), Start(), 0, turns)
  }

  predicate Reached(plan: seq<Target>, turns: nat, c: Config) {
    SlowRun(plan, turns) == Running(c)
  }

  // One more turn.
  lemma Takes(plan: seq<Target>, turns: nat, c: Config, p: Progress)
    requires Reached(plan, turns, c) && p == Step(c, SlowEdges(plan), SlowAnswer(Answers(|plan|, turns)))
    ensures SlowRun(plan, turns + 1) == p
    ensures Inv(c, |plan|) && !p.Faulted?
  {
    RunExtends(DriverOf(SlowWorld(plan)), Start(), turns, c);
    RunningIsInv(NamedPrevious, false, {}, SlowWorld(plan), |plan|, turns, c);
    StepMoves(c, SlowEdges(plan), SlowAnswer(Answers(|plan|, turns)), |plan|);
  }

  // --------------------------------------------------------------- positions

  predicate InPlan(s: State, plan: seq<Target>, round: nat) {
    s.route == plan && s.backoff == {} && s.prepared && s.mcp == Some({"t"}) && s.rounds == round
  }

  // A call of the candidate is out, its first in the round or its second, and the
  // provider's answer is in.
  predicate Waiting(c: Config, plan: seq<Target>, candidate: nat, sole: bool, round: nat, answered: bool) {
    var s := c.state;
    && InPlan(s, plan, round) && s.attempts != [] && s.phase == CallingProvider(|s.attempts|, true)
    && Last(s).candidate == candidate && Last(s).round == round && Last(s).facts == FACTS
    && SoleDispatch(s.attempts) == sole && (sole ==> Last(s).native)
    && c.spent == Spent(round, 2 * round)
    && c.event == if answered then ProviderIngressReceived(|s.attempts|, Decoded(TOOL_CALLS, false))
                  else ProviderCallFailed(|s.attempts|, INVALID_REFERENCE)
  }

  // The failed call's facts have come back changed.
  predicate Resolving(c: Config, plan: seq<Target>, candidate: nat, sole: bool) {
    var s := c.state;
    && InPlan(s, plan, 0) && s.attempts != [] && s.phase == ResolvingFacts(|s.attempts|)
    && Last(s).candidate == candidate && Last(s).round == 0 && Last(s).facts == FACTS
    && Last(s).failure == Some(INVALID_REFERENCE)
    && SoleDispatch(s.attempts) == sole && c.spent == Spent(0, 0)
    && c.event.FactsCharacterized? && c.event.resolutions == map["f" := false]
  }

  // Tool calls of the round just answered: the batch is granted, or next of the
  // two calls has returned.
  predicate Tooling(c: Config, plan: seq<Target>, candidate: nat, round: nat, event: Event, next: nat) {
    var s := c.state;
    && InPlan(s, plan, round) && s.attempts != [] && s.phase == CallingMcp(candidate, TOOL_CALLS, next)
    && Last(s).round < round && c.spent == Spent(round, 2 * round) && c.event == event
  }

  // ------------------------------------------------------------ one turn each

  lemma FirstFailure(c: Config, plan: seq<Target>, candidate: nat, sole: bool, answer: Answer, p: Progress)
    requires Inv(c, |plan|) && Waiting(c, plan, candidate, sole, 0, false)
    requires answer.facts == map["f" := false] && p == Step(c, SlowEdges(plan), answer)
    ensures p.Running? && Resolving(p.config, plan, candidate, sole)
  {
    var s := c.state;
    var outcome := Last(s).(status := Exchange.Failed, failure := Some(INVALID_REFERENCE));
    var failed := s.(attempts := s.attempts[|s.attempts| - 1 := outcome]);
    assert FailAttempt(s, |s.attempts|, INVALID_REFERENCE) == Ok(failed);
    assert "f" in Last(s).facts;
    var r := Reduce(s, c.event, SlowEdges(plan));
    assert r == Ok(Outcome(failed.(phase := ResolvingFacts(|s.attempts|)),
                           Some(CharacterizeFacts(|s.attempts|, outcome.generation, FACTS.Keys))));
    FactsReturn(failed, answer, c.spent, r, p);
  }

  lemma FactsReturn(failed: State, answer: Answer, spent: Spent, r: Reduced, p: Progress)
    requires failed.attempts != [] && Last(failed).facts == FACTS && answer.facts == map["f" := false]
    requires r == Ok(Outcome(failed.(phase := ResolvingFacts(|failed.attempts|)),
                             Some(CharacterizeFacts(|failed.attempts|, Last(failed).generation, FACTS.Keys))))
    requires Follows(p, r, answer, spent)
    ensures p == Running(LookupOf(failed, map["f" := false], spent))
  {
    assert (map f | f in answer.facts && f in FACTS.Keys :: answer.facts[f]) == map["f" := false];
  }

  lemma Dispatched(s: State, selection: Selection, plan: seq<Target>, r: Reduced)
    requires s.route == plan && selection.candidate < |plan| && s.mcp == Some({"t"})
    requires r == AdvanceFrom(s, selection, SlowEdges(plan)) && r.Ok?
    ensures r.value.command == Some(CallProvider(|s.attempts| + 1))
    ensures r.value.state == Evaluated(s, selection).(
              attempts := s.attempts + [NewAttempt(s, selection, READY)], phase := CallingProvider(|s.attempts| + 1, true))
  {
  }

  lemma DispatchWaits(s: State, selection: Selection, plan: seq<Target>, spent: Spent, answers: bool, t: State, d: Config)
    requires InPlan(s, plan, s.rounds) && selection.candidate < |plan| && s.attempts != []
    requires Last(s).round == s.rounds && spent == Spent(s.rounds, 2 * s.rounds)
    requires selection.choice != Preferred ==> selection.candidate == Last(s).candidate
    requires t == Evaluated(s, selection).(
               attempts := s.attempts + [NewAttempt(s, selection, READY)], phase := CallingProvider(|s.attempts| + 1, true))
    requires d == Config(t, if answers then ProviderIngressReceived(|s.attempts| + 1, Decoded(TOOL_CALLS, false))
                            else ProviderCallFailed(|s.attempts| + 1, INVALID_REFERENCE), spent)
    ensures Waiting(d, plan, selection.candidate, selection.candidate != Last(s).candidate, s.rounds, answers)
  {
    assert t.attempts[|t.attempts| - 2] == Last(s);
  }

  lemma ResolvedSelects(s: State, event: Event, plan: seq<Target>, candidate: nat, sole: bool, r: Reduced)
    requires InPlan(s, plan, 0) && s.attempts != [] && s.phase == ResolvingFacts(|s.attempts|)
    requires Last(s).candidate == candidate && Last(s).round == 0 && Last(s).facts == FACTS
    requires Last(s).failure == Some(INVALID_REFERENCE) && Last(s).status == Exchange.Failed
    requires DispatchCount(s.attempts, candidate, 0) == (if sole then 1 else 2) && (sole || candidate + 1 < |plan|)
    requires event.FactsCharacterized? && event.id == |s.attempts| && event.generation == Last(s).generation
    requires FactsChanged(FACTS, event.resolutions)
    requires r == Reduce(s, event, SlowEdges(plan))
    ensures r == AdvanceFrom(s, if sole then Selection(candidate, Reprojected) else Selection(candidate + 1, Preferred),
                             SlowEdges(plan))
  {
    if sole {
      assert DispatchCount(s.attempts, candidate, 0) < 2;
    } else {
      assert NextEligible(s, candidate + 1) == Some(Selection(candidate + 1, Preferred));
      assert SelectNext(s) == NextEligible(s, candidate + 1);
    }
  }

  lemma Resolved(c: Config, plan: seq<Target>, candidate: nat, sole: bool, answers: bool, p: Progress)
    requires Inv(c, |plan|) && Resolving(c, plan, candidate, sole) && (sole || candidate + 1 < |plan|)
    requires p == Step(c, SlowEdges(plan), SlowAnswer(answers)) && !p.Faulted?
    ensures p.Running?
    ensures if sole then Waiting(p.config, plan, candidate, false, 0, answers)
            else Waiting(p.config, plan, candidate + 1, true, 0, answers)
  {
    var s := c.state;
    var r := Reduce(s, c.event, SlowEdges(plan));
    assert Eligible(PlanOf(s), candidate);
    CountAtLast(s.attempts);
    assert "f" in c.event.resolutions;
    ResolvedSelects(s, c.event, plan, candidate, sole, r);
    var selection := if sole then Selection(candidate, Reprojected) else Selection(candidate + 1, Preferred);
    Dispatched(s, selection, plan, r);
    DispatchRuns(s, selection, plan, c.spent, answers, r, p);
  }

  // The answer to a dispatch is in.
  lemma DispatchRuns(s: State, selection: Selection, plan: seq<Target>, spent: Spent, answers: bool, r: Reduced, p: Progress)
    requires InPlan(s, plan, s.rounds) && selection.candidate < |plan| && s.attempts != []
    requires Last(s).round == s.rounds && spent == Spent(s.rounds, 2 * s.rounds)
    requires selection.choice != Preferred ==> selection.candidate == Last(s).candidate
    requires r.Ok? && r.value.command == Some(CallProvider(|s.attempts| + 1))
    requires r.value.state == Evaluated(s, selection).(
               attempts := s.attempts + [NewAttempt(s, selection, READY)], phase := CallingProvider(|s.attempts| + 1, true))
    requires Follows(p, r, SlowAnswer(answers), spent)
    ensures p.Running?
    ensures Waiting(p.config, plan, selection.candidate, selection.candidate != Last(s).candidate, s.rounds, answers)
  {
    DispatchWaits(s, selection, plan, spent, answers, r.value.state, p.config);
  }

  // After the first round a failed call is not characterized: it is retried in
  // full at once.
  lemma LaterFailure(c: Config, plan: seq<Target>, candidate: nat, round: nat, answers: bool, p: Progress)
    requires Inv(c, |plan|) && Waiting(c, plan, candidate, true, round, false) && round > 0
    requires p == Step(c, SlowEdges(plan), SlowAnswer(answers)) && !p.Faulted?
    ensures p.Running? && Waiting(p.config, plan, candidate, false, round, answers)
  {
    var s := c.state;
    var outcome := Last(s).(status := Exchange.Failed, failure := Some(INVALID_REFERENCE));
    var failed := s.(attempts := s.attempts[|s.attempts| - 1 := outcome]);
    var r := Reduce(s, c.event, SlowEdges(plan));
    SettledPosition(s, outcome, failed, c.spent);
    assert Eligible(PlanOf(s), candidate);
    assert FailAttempt(s, |s.attempts|, INVALID_REFERENCE) == Ok(failed);
    assert r == Advance(failed, SlowEdges(plan));
    CountAtLast(failed.attempts);
    assert SoleDispatch(failed.attempts);
    assert SelectNext(failed) == Some(Selection(candidate, FullHistory));
    Dispatched(failed, Selection(candidate, FullHistory), plan, r);
    DispatchRuns(failed, Selection(candidate, FullHistory), plan, c.spent, answers, r, p);
  }

  lemma BothAreRemote()
    ensures Classify(Some({"t"}), TOOL_CALLS) == Some(TOOL_CALLS)
  {
    assert TOOL_CALLS[..1] == [TOOL] && [TOOL][..0] == [];
    assert RemoteCalls({"t"}, [TOOL]) == [TOOL];
    assert RemoteCalls({"t"}, TOOL_CALLS) == TOOL_CALLS;
    assert forall i :: 0 <= i < |TOOL_CALLS| ==> !CallerOwned({"t"}, TOOL_CALLS[i]);
  }

  // An answer with tool calls starts a batch, unless the rounds are used up.
  lemma Decodes(c: Config, plan: seq<Target>, candidate: nat, sole: bool, round: nat, answer: Answer, p: Progress)
    requires Inv(c, |plan|) && Waiting(c, plan, candidate, sole, round, true)
    requires p == Step(c, SlowEdges(plan), answer)
    ensures p.Running?
    ensures round < MAX_REMOTE_ROUNDS ==> Tooling(p.config, plan, candidate, round + 1, McpBatchStarted(true), 0)
    ensures round == MAX_REMOTE_ROUNDS ==> p.config.state.phase.CallingMcp? && p.config.event == McpBatchStarted(false)
  {
    var s := c.state;
    var outcome := Last(s).(status := HandoffReady);
    var done := s.(attempts := s.attempts[|s.attempts| - 1 := outcome]);
    var r := Reduce(s, c.event, SlowEdges(plan));
    assert CompleteAttempt(s, |s.attempts|) == Ok(done);
    BothAreRemote();
    IngressReduces(s, done, Decoded(TOOL_CALLS, false), SlowEdges(plan), r);
    BatchStarts(c, done, candidate, round, answer, r, p);
  }

  lemma BatchStarts(c: Config, done: State, candidate: nat, round: nat, answer: Answer, r: Reduced, p: Progress)
    requires done.attempts != [] && done.mcp == Some({"t"}) && done.rounds == round && Last(done).candidate == candidate
    requires r == BeginBatch(done.(rounds := round + 1), CallingMcp(candidate, TOOL_CALLS, 0))
    requires c.spent == Spent(round, 2 * round) && round <= MAX_REMOTE_ROUNDS && Follows(p, r, answer, c.spent)
    ensures p == if round < MAX_REMOTE_ROUNDS then Running(BatchOf(done, TOOL_CALLS, true, Spent(round + 1, 2 * round + 2)))
                 else Running(BatchOf(done, TOOL_CALLS, false, c.spent))
  {
    var reserved := Reserve(c.spent, {"t"}, TOOL_CALLS);
    BatchRuns(c, done, TOOL_CALLS, answer, r, p, reserved.Some?, if reserved.Some? then reserved.value else c.spent);
  }

  lemma FirstTool(c: Config, plan: seq<Target>, candidate: nat, round: nat, answers: bool, p: Progress)
    requires Tooling(c, plan, candidate, round, McpBatchStarted(true), 0)
    requires p == Step(c, SlowEdges(plan), SlowAnswer(answers))
    ensures p.Running? && Tooling(p.config, plan, candidate, round, McpToolReturned(true), 0)
  {
  }

  lemma SecondTool(c: Config, plan: seq<Target>, candidate: nat, round: nat, answers: bool, p: Progress)
    requires Tooling(c, plan, candidate, round, McpToolReturned(true), 0)
    requires p == Step(c, SlowEdges(plan), SlowAnswer(answers))
    ensures p.Running? && Tooling(p.config, plan, candidate, round, McpToolReturned(true), 1)
  {
  }

  // The last tool call returned: the same candidate is called in a new round.
  lemma NextRound(c: Config, plan: seq<Target>, candidate: nat, round: nat, answers: bool, p: Progress)
    requires Inv(c, |plan|) && Tooling(c, plan, candidate, round, McpToolReturned(true), 1)
    requires p == Step(c, SlowEdges(plan), SlowAnswer(answers)) && !p.Faulted?
    ensures p.Running? && Waiting(p.config, plan, candidate, true, round, answers)
  {
    var s := c.state;
    var selection := Selection(candidate, Preferred);
    assert Eligible(PlanOf(s), Last(s).candidate);
    var r := Reduce(s, c.event, SlowEdges(plan));
    assert r == BeginAttempt(s, selection, READY);
    RoundRuns(s, selection, plan, c.spent, answers, r, p);
  }

  lemma RoundRuns(s: State, selection: Selection, plan: seq<Target>, spent: Spent, answers: bool, r: Reduced, p: Progress)
    requires InPlan(s, plan, s.rounds) && selection.candidate < |plan| && selection.choice == Preferred
    requires s.attempts != [] && Last(s).round < s.rounds && spent == Spent(s.rounds, 2 * s.rounds)
    requires r == BeginAttempt(s, selection, READY) && r.Ok? && Follows(p, r, SlowAnswer(answers), spent)
    ensures p.Running? && Waiting(p.config, plan, selection.candidate, true, s.rounds, answers)
  {
    var t := r.value.state;
    assert t.attempts[|t.attempts| - 2] == Last(s);
  }

  // -------------------------------------------------------------- the whole run

  // Three turns: the checkpoint, the plan and the tools are in place.
  lemma Opens(plan: seq<Target>) returns (c: Config)
    requires plan != []
    ensures Reached(plan, 3, c) && Waiting(c, plan, 0, true, 0, false)
  {
    assert Reached(plan, 0, Start());
    var loading := Step(Start(), SlowEdges(plan), SlowAnswer(Answers(|plan|, 0)));
    Takes(plan, 0, Start(), loading);
    var planned := Step(loading.config, SlowEdges(plan), SlowAnswer(Answers(|plan|, 1)));
    Takes(plan, 1, loading.config, planned);
    c := TurnOpens(plan, planned.config);
  }

  lemma TurnOpens(plan: seq<Target>, c: Config) returns (d: Config)
    requires plan != [] && Reached(plan, 2, c)
    requires c.state == State(NamedPrevious, false, plan, {}, true, false, None, 0, [], 0, PreparingMcp, {})
    requires c.event == McpPrepared(Some(Some({"t"}))) && c.spent == Spent(0, 0)
    ensures Reached(plan, 3, d) && Waiting(d, plan, 0, true, 0, false)
  {
    var called := Step(c, SlowEdges(plan), SlowAnswer(Answers(|plan|, 2)));
    Takes(plan, 2, c, called);
    OpensCall(c, plan, SlowAnswer(Answers(|plan|, 2)), called);
    d := called.config;
  }

  lemma OpensCall(c: Config, plan: seq<Target>, answer: Answer, p: Progress)
    requires plan != [] && answer == SlowAnswer(false)
    requires c.state == State(NamedPrevious, false, plan, {}, true, false, None, 0, [], 0, PreparingMcp, {})
    requires c.event == McpPrepared(Some(Some({"t"}))) && c.spent == Spent(0, 0)
    requires p == Step(c, SlowEdges(plan), answer)
    ensures p.Running? && Waiting(p.config, plan, 0, true, 0, false)
  {
    var s := c.state.(drafted := false, prepared := true, mcp := Some({"t"}));
    var r := Reduce(c.state, c.event, SlowEdges(plan));
    assert SelectNext(s) == Some(Selection(0, Preferred));
    assert r == AdvanceFrom(s, Selection(0, Preferred), SlowEdges(plan));
    assert !Consumed(Evaluated(s, Selection(0, Preferred)), Selection(0, Preferred));
    Dispatched(s, Selection(0, Preferred), plan, r);
  }

  lemma TurnFails(plan: seq<Target>, candidate: nat, sole: bool, turn: nat, c: Config) returns (d: Config)
    requires Reached(plan, turn, c) && Waiting(c, plan, candidate, sole, 0, false)
    ensures Reached(plan, turn + 1, d) && Resolving(d, plan, candidate, sole)
  {
    var p := Step(c, SlowEdges(plan), SlowAnswer(Answers(|plan|, turn)));
    Takes(plan, turn, c, p);
    FirstFailure(c, plan, candidate, sole, SlowAnswer(Answers(|plan|, turn)), p);
    d := p.config;
  }

  lemma TurnResolves(plan: seq<Target>, candidate: nat, sole: bool, turn: nat, c: Config) returns (d: Config)
    requires Reached(plan, turn, c) && Resolving(c, plan, candidate, sole) && (sole || candidate + 1 < |plan|)
    ensures Reached(plan, turn + 1, d)
    ensures Waiting(d, plan, if sole then candidate else candidate + 1, !sole, 0, Answers(|plan|, turn))
  {
    var p := Step(c, SlowEdges(plan), SlowAnswer(Answers(|plan|, turn)));
    Takes(plan, turn, c, p);
    Resolved(c, plan, candidate, sole, Answers(|plan|, turn), p);
    d := p.config;
  }

  lemma FailsOnce(plan: seq<Target>, candidate: nat, sole: bool, turn: nat, c: Config) returns (d: Config)
    requires Reached(plan, turn, c) && Waiting(c, plan, candidate, sole, 0, false) && (sole || candidate + 1 < |plan|)
    ensures Reached(plan, turn + 2, d)
    ensures Waiting(d, plan, if sole then candidate else candidate + 1, !sole, 0, Answers(|plan|, turn + 1))
  {
    var failed := TurnFails(plan, candidate, sole, turn, c);
    d := TurnResolves(plan, candidate, sole, turn + 1, failed);
  }

  // A candidate fails twice, each time with changed facts.
  lemma FailsTwice(plan: seq<Target>, candidate: nat, turn: nat, c: Config) returns (d: Config)
    requires Reached(plan, turn, c) && Waiting(c, plan, candidate, true, 0, false)
    requires candidate + 1 < |plan| && turn + 3 <= LastTurn(|plan|)
    ensures Reached(plan, turn + 4, d) && Waiting(d, plan, candidate + 1, true, 0, false)
  {
    var again := FailsOnce(plan, candidate, true, turn, c);
    d := FailsOnce(plan, candidate, false, turn + 2, again);
  }

  lemma {:induction false} EveryCandidateFails(plan: seq<Target>, candidate: nat, turn: nat) returns (c: Config)
    requires candidate < |plan| && turn == 3 + 4 * candidate
    ensures Reached(plan, turn, c) && Waiting(c, plan, candidate, true, 0, false)
  {
    if candidate == 0 {
      c := Opens(plan);
    } else {
      var before := EveryCandidateFails(plan, candidate - 1, turn - 4);
      c := FailsTwice(plan, candidate - 1, turn - 4, before);
    }
  }

  lemma TurnDecodes(plan: seq<Target>, candidate: nat, round: nat, turn: nat, c: Config) returns (d: Config)
    requires Reached(plan, turn, c) && Waiting(c, plan, candidate, false, round, true) && round <= MAX_REMOTE_ROUNDS
    ensures Reached(plan, turn + 1, d)
    ensures round < MAX_REMOTE_ROUNDS ==> Tooling(d, plan, candidate, round + 1, McpBatchStarted(true), 0)
    ensures round == MAX_REMOTE_ROUNDS ==> d.state.phase.CallingMcp? && d.event == McpBatchStarted(false)
  {
    var p := Step(c, SlowEdges(plan), SlowAnswer(Answers(|plan|, turn)));
    Takes(plan, turn, c, p);
    Decodes(c, plan, candidate, false, round, SlowAnswer(Answers(|plan|, turn)), p);
    d := p.config;
  }

  lemma TurnCallsTool(plan: seq<Target>, candidate: nat, round: nat, first: bool, turn: nat, c: Config) returns (d: Config)
    requires Reached(plan, turn, c)
    requires Tooling(c, plan, candidate, round, if first then McpBatchStarted(true) else McpToolReturned(true), 0)
    ensures Reached(plan, turn + 1, d) && Tooling(d, plan, candidate, round, McpToolReturned(true), if first then 0 else 1)
  {
    var p := Step(c, SlowEdges(plan), SlowAnswer(Answers(|plan|, turn)));
    Takes(plan, turn, c, p);
    if first {
      FirstTool(c, plan, candidate, round, Answers(|plan|, turn), p);
    } else {
      SecondTool(c, plan, candidate, round, Answers(|plan|, turn), p);
    }
    d := p.config;
  }

  lemma TurnOpensRound(plan: seq<Target>, candidate: nat, round: nat, turn: nat, c: Config) returns (d: Config)
    requires Reached(plan, turn, c) && Tooling(c, plan, candidate, round, McpToolReturned(true), 1)
    ensures Reached(plan, turn + 1, d) && Waiting(d, plan, candidate, true, round, Answers(|plan|, turn))
  {
    var p := Step(c, SlowEdges(plan), SlowAnswer(Answers(|plan|, turn)));
    Takes(plan, turn, c, p);
    NextRound(c, plan, candidate, round, Answers(|plan|, turn), p);
    d := p.config;
  }

  // A round's second call is answered with two tool calls, which are made.
  lemma UsesTools(plan: seq<Target>, candidate: nat, round: nat, turn: nat, c: Config) returns (d: Config)
    requires Reached(plan, turn, c) && Waiting(c, plan, candidate, false, round, true) && round < MAX_REMOTE_ROUNDS
    ensures Reached(plan, turn + 4, d) && Waiting(d, plan, candidate, true, round + 1, Answers(|plan|, turn + 3))
  {
    var batch := TurnDecodes(plan, candidate, round, turn, c);
    var first := TurnCallsTool(plan, candidate, round + 1, true, turn + 1, batch);
    var second := TurnCallsTool(plan, candidate, round + 1, false, turn + 2, first);
    d := TurnOpensRound(plan, candidate, round + 1, turn + 3, second);
  }

  lemma TurnRetries(plan: seq<Target>, candidate: nat, round: nat, turn: nat, c: Config) returns (d: Config)
    requires Reached(plan, turn, c) && Waiting(c, plan, candidate, true, round, false) && round > 0
    ensures Reached(plan, turn + 1, d) && Waiting(d, plan, candidate, false, round, Answers(|plan|, turn))
  {
    var p := Step(c, SlowEdges(plan), SlowAnswer(Answers(|plan|, turn)));
    Takes(plan, turn, c, p);
    LaterFailure(c, plan, candidate, round, Answers(|plan|, turn), p);
    d := p.config;
  }

  // Of each five turns of the last candidate the second is the one answered.
  lemma RoundAnswers(n: nat, round: nat, turn: nat)
    requires n > 0 && turn == LastTurn(n) + 5 * round + 2
    ensures Answers(n, turn - 1)
    ensures round > 0 ==> !Answers(n, turn - 2)
  {
  }

  lemma OneRound(plan: seq<Target>, round: nat, turn: nat, c: Config) returns (d: Config)
    requires plan != [] && Reached(plan, turn, c) && Waiting(c, plan, |plan| - 1, false, round, true)
    requires round < MAX_REMOTE_ROUNDS && turn == LastTurn(|plan|) + 5 * round + 2
    ensures Reached(plan, turn + 5, d) && Waiting(d, plan, |plan| - 1, false, round + 1, true)
  {
    RoundAnswers(|plan|, round + 1, turn + 5);
    var again := UsesTools(plan, |plan| - 1, round, turn, c);
    d := TurnRetries(plan, |plan| - 1, round + 1, turn + 4, again);
  }

  lemma FirstRound(plan: seq<Target>, turn: nat) returns (c: Config)
    requires plan != [] && turn == LastTurn(|plan|)
    ensures Reached(plan, turn + 2, c) && Waiting(c, plan, |plan| - 1, false, 0, true)
  {
    RoundAnswers(|plan|, 0, turn + 2);
    var before := EveryCandidateFails(plan, |plan| - 1, turn);
    c := FailsOnce(plan, |plan| - 1, true, turn, before);
  }

  // Every round of the last candidate: two calls, the second answered.
  lemma {:induction false} EveryRound(plan: seq<Target>, round: nat, turn: nat) returns (c: Config)
    requires plan != [] && round <= MAX_REMOTE_ROUNDS && turn == LastTurn(|plan|) + 5 * round + 2
    ensures Reached(plan, turn, c) && Waiting(c, plan, |plan| - 1, false, round, true)
  {
    if round == 0 {
      c := FirstRound(plan, turn - 2);
    } else {
      var before := EveryRound(plan, round - 1, turn - 5);
      c := OneRound(plan, round - 1, turn - 5, before);
    }
  }

  lemma RunsOut(plan: seq<Target>, turn: nat) returns (c: Config)
    requires plan != [] && turn == LastTurn(|plan|) + 42
    ensures Reached(plan, turn + 1, c) && c.state.phase.CallingMcp? && c.event == McpBatchStarted(false)
  {
    var before := EveryRound(plan, MAX_REMOTE_ROUNDS, turn);
    c := TurnDecodes(plan, |plan| - 1, MAX_REMOTE_ROUNDS, turn, before);
  }

  lemma RefusedEnds(plan: seq<Target>, turn: nat, c: Config)
    requires Reached(plan, turn, c) && c.state.phase.CallingMcp? && c.event == McpBatchStarted(false)
    ensures SlowRun(plan, turn + 1).Done?
  {
    Takes(plan, turn, c, Step(c, SlowEdges(plan), SlowAnswer(Answers(|plan|, turn))));
  }

  // The bound on the length of a run is attained: for every non-empty plan there
  // is a world in which the run takes exactly 4n + 43 turns.
  lemma BoundIsAttained(plan: seq<Target>)
    requires plan != []
    ensures SlowRun(plan, 4 * |plan| + 42).Running?
    ensures SlowRun(plan, 4 * |plan| + 43).Done?
  {
    var refused := RunsOut(plan, LastTurn(|plan|) + 42);
    RefusedEnds(plan, 4 * |plan| + 42, refused);
  }

  lemma {:induction false} RanSoFar(driver: Driver, c: Config, from: nat, turns: nat, more: nat)
    requires RunFor(driver, c, from, turns + more).Running?
    ensures RunFor(driver, c, from, turns).Running?
    decreases turns
  {
    if turns > 0 {
      RanSoFar(driver, driver(c, from).config, from + 1, turns - 1, more);
    }
  }

  // The transition limit is a real limit: every plan of 240 targets or more has
  // a world in which the driver gives up.
  lemma LimitIsMet(plan: seq<Target>)
    requires |plan| >= 240
    ensures ResultOf(SlowRun(plan, TRANSITION_LIMIT)) == LimitReached
  {
    BoundIsAttained(plan);
    RanSoFar(DriverOf(SlowWorld(plan)), Start(), 0, TRANSITION_LIMIT, 4 * |plan| + 42 - TRANSITION_LIMIT);
  }
}
