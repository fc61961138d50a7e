// The turns of an exchange in which nothing failed, told from raw fields: how a
// run starts, who is called first, and what a decoded answer and its tool calls
// lead to.
module ExchangeAnswers {
  import opened Wrappers
  import opened Exchange
  import opened ExchangeLaws
  import opened ExchangeRuns
  import opened ExchangeLaterRounds
  import opened ExchangeTurns

  predicate Reports(s: State, p: Progress) {
    p.Done? && p.state.phase == Exchange.Ended(Reported) && p.state.attempts == s.attempts
  }

  // ------------------------------------------------------------------ the start

  // A run that names its predecessor, or whose request was rebased, loads a
  // checkpoint first; one with a blank predecessor is refused; any other is
  // drafted and planned at once.
  lemma StartTurn(c: Config, edges: Edges, answer: Answer, p: Progress)
    requires c.state.phase.Starting? && c.event.Started? && p == Step(c, edges, answer)
    ensures match c.state.previous
            case BlankPrevious => Reports(c.state, p)
            case NamedPrevious => p == Running(LoadingOf(c, true, answer))
            case NoPrevious =>
              if c.state.rebased then p == Running(LoadingOf(c, false, answer))
              else if edges.draft && edges.route.Some? then p == Running(PlannedOf(c, edges.route.value, answer))
              else Reports(c.state, p)
  {
  }

  function LoadingOf(c: Config, explicit: bool, answer: Answer): Config {
    Config(c.state.(phase := LoadingCheckpoint(explicit)),
           CheckpointLoaded(answer.load.Some?, answer.load == Some(true)), c.spent)
  }

  function PlannedOf(c: Config, route: seq<Target>, answer: Answer): Config {
    Config(c.state.(route := route, drafted := true, phase := PreparingMcp), McpPrepared(answer.run), c.spent)
  }

  // A loaded run goes on unless loading failed, or the named predecessor is not
  // there, or drafting or planning fails.
  lemma LoadTurn(c: Config, edges: Edges, answer: Answer, p: Progress)
    requires c.state.phase.LoadingCheckpoint? && c.event.CheckpointLoaded? && p == Step(c, edges, answer)
    ensures if c.event.ok && (c.event.found || !c.state.phase.explicit) && edges.draft && edges.route.Some?
            then p == Running(PlannedOf(c, edges.route.value, answer)) else Reports(c.state, p)
  {
  }

  // The first candidate of the plan that is eligible and can be prepared, every
  // eligible one before it being unavailable.
  predicate First(plan: Plan, edges: Edges, j: nat) {
    && Eligible(plan, j) && edges.prepare(Selection(j, Preferred)).Ready?
    && forall i: nat :: i < j && Eligible(plan, i) ==> edges.prepare(Selection(i, Preferred)).Unavailable?
  }

  lemma FirstIsLanded(plan: Plan, edges: Edges, next: Selection, j: nat)
    requires next.choice == Preferred && Eligible(plan, next.candidate)
    requires forall i: nat :: i < next.candidate ==> !Eligible(plan, i)
    ensures First(plan, edges, j) <==> Lands(plan, edges, next, j)
  {
    if First(plan, edges, j) {
      assert next.candidate <= j;
      assert next.candidate < j ==> edges.prepare(Selection(next.candidate, Preferred)).Unavailable?;
    }
  }

  // What the first call of a prepared run comes to.
  ghost predicate Opens(s: State, edges: Edges, r: Reduced) {
    && r.Ok?
    && (forall j: nat :: First(PlanOf(s), edges, j) ==> Dispatches(s, r, j, Preferred, edges))
    && ((forall j: nat :: !First(PlanOf(s), edges, j)) ==>
          && r.value.command.None? && r.value.state.attempts == []
          && r.value.state.phase ==
             Exchange.Ended(if s.route == [] then NoViableCandidate
                            else if forall i :: 0 <= i < |s.route| ==> s.route[i] in s.backoff then NoAvailableTarget
                            else Reported))
  }

  lemma OpensWith(s: State, edges: Edges, next: Selection, r: Reduced)
    requires Ledger(s) && s.attempts == [] && s.rounds == 0 && s.evaluated == 0
    requires NextEligible(s, 0) == Some(next) && r == AdvanceFrom(s, next, edges)
    ensures Opens(s, edges, r)
  {
    NextEligibleInPlan(s, 0);
    SelectNextIsSelectable(s);
    forall j: nat
      ensures First(PlanOf(s), edges, j) <==> Lands(PlanOf(s), edges, next, j)
    {
      FirstIsLanded(PlanOf(s), edges, next, j);
    }
    forall j: nat | First(PlanOf(s), edges, j)
      ensures Dispatches(s, r, j, Preferred, edges)
    {
      WalkDispatches(s, next, edges, r, j);
    }
    if forall j: nat :: !First(PlanOf(s), edges, j) {
      assert !Lands(PlanOf(s), edges, next, next.candidate);
      forall j: nat | edges.prepare(next).Unavailable?
        ensures !FirstReady(PlanOf(s), edges, next.candidate, j)
      {
        assert !Lands(PlanOf(s), edges, next, j);
      }
      WalkReports(s, next, edges, r);
    }
  }

  lemma OpensNowhere(s: State, edges: Edges, r: Reduced)
    requires s.attempts == [] && NextEligible(s, 0).None? && CanTerminate(s) && r == Terminate(s)
    ensures Opens(s, edges, r)
  {
    NoneLater(s, s, 0);
    forall i | 0 <= i < |s.route|
      ensures s.route[i] in s.backoff
    {
      assert !Eligible(PlanOf(s), i);
    }
  }

  // The first call goes to the first candidate that can take it; with none, the
  // run ends telling an empty plan, a wholly suppressed one and one that could
  // not be prepared apart.
  lemma PrepareTurn(c: Config, edges: Edges, answer: Answer, bound: nat, p: Progress) returns (r: Reduced)
    requires Inv(c, bound) && c.state.phase.PreparingMcp? && p == Step(c, edges, answer)
    ensures c.event.run.None? || !edges.finalize ==> Reports(c.state, p)
    ensures c.event.run.Some? && edges.finalize ==>
              && Follows(p, r, answer, c.spent)
              && Opens(c.state.(drafted := false, prepared := true, mcp := c.event.run.value), edges, r)
  {
    r := Reduce(c.state, c.event, edges);
    if c.event.run.Some? && edges.finalize {
      var s := c.state.(drafted := false, prepared := true, mcp := c.event.run.value);
      assert r == Advance(s, edges);
      if NextEligible(s, 0).Some? {
        OpensWith(s, edges, NextEligible(s, 0).value, r);
      } else {
        OpensNowhere(s, edges, r);
      }
    }
  }

  // ------------------------------------------------------------- a decoded answer

  predicate OfRun(s: State, call: Call) {
    s.mcp.Some? && call.tool in s.mcp.value
  }

  // Calls the run executes next to calls the caller must.
  predicate Mixed(s: State, calls: seq<Call>) {
    && (exists i :: 0 <= i < |calls| && OfRun(s, calls[i]))
    && (exists i :: 0 <= i < |calls| && !OfRun(s, calls[i]) && calls[i].callerExecutes)
  }

  predicate Callerwards(s: State, calls: seq<Call>) {
    forall i :: 0 <= i < |calls| ==> !OfRun(s, calls[i])
  }

  lemma {:induction false} NoneRemote(bindings: set<string>, calls: seq<Call>)
    ensures RemoteCalls(bindings, calls) == [] <==> forall i :: 0 <= i < |calls| ==> calls[i].tool !in bindings
    ensures forall i :: 0 <= i < |RemoteCalls(bindings, calls)| ==> RemoteCalls(bindings, calls)[i].tool in bindings
  {
    if calls != [] {
      var front := calls[..|calls| - 1];
      NoneRemote(bindings, front);
      assert forall i :: 0 <= i < |front| ==> front[i] == calls[i];
    }
  }

  lemma ClassifiedAs(s: State, calls: seq<Call>)
    ensures Classify(s.mcp, calls).None? <==> Mixed(s, calls)
    ensures Classify(s.mcp, calls) == Some([]) <==> Callerwards(s, calls)
    ensures Classify(s.mcp, calls).Some? && !Callerwards(s, calls) ==>
              s.mcp.Some? && Classify(s.mcp, calls).value == RemoteCalls(s.mcp.value, calls)
  {
    if s.mcp.Some? {
      NoneRemote(s.mcp.value, calls);
      assert (exists i :: 0 <= i < |calls| && CallerOwned(s.mcp.value, calls[i]))
        <==> (exists i :: 0 <= i < |calls| && !OfRun(s, calls[i]) && calls[i].callerExecutes);
    }
  }

  function Settled(s: State): State
    requires s.attempts != []
  {
    s.(attempts := s.attempts[|s.attempts| - 1 := Last(s).(status := HandoffReady)])
  }

  // The tools may be called: at most eight rounds and sixteen calls in all.
  predicate Affordable(spent: Spent, n: nat) {
    spent.rounds < 8 && spent.calls + n <= 16
  }

  // A batch is granted exactly when it is not empty, every call is bound, and both
  // budgets allow all of it.
  lemma AffordableIsReserved(spent: Spent, bindings: set<string>, calls: seq<Call>)
    ensures Reserve(spent, bindings, calls) ==
            if calls != [] && (forall i :: 0 <= i < |calls| ==> calls[i].tool in bindings) && Affordable(spent, |calls|)
            then Some(Spent(spent.rounds + 1, spent.calls + |calls|)) else None
  {
  }

  // A decoded answer completes the run when it was handed on already or leaves no
  // calls for the run; calls for both sides at once are refused; otherwise the
  // run's own calls are made, if they are still affordable.
  lemma AnswerTurn(c: Config, edges: Edges, answer: Answer, bound: nat, p: Progress, calls: seq<Call>, handoff: bool)
    requires Inv(c, bound) && c.state.phase.CallingProvider? && p == Step(c, edges, answer)
    requires c.event == ProviderIngressReceived(|c.state.attempts|, Decoded(calls, handoff))
    ensures var s := c.state;
            var done := Settled(s);
            if !s.phase.delayed || (Callerwards(s, calls) && handoff) then p == Done(done.(phase := Completed))
            else if Callerwards(s, calls) || Mixed(s, calls) then p == Done(done.(phase := Exchange.Ended(Reported)))
            else
              && s.mcp.Some?
              && var remote := RemoteCalls(s.mcp.value, calls);
                 var granted := Affordable(c.spent, |remote|);
                 p == Running(BatchOf(done, remote, granted,
                                      if granted then Spent(c.spent.rounds + 1, c.spent.calls + |remote|) else c.spent))
  {
    var s, done := c.state, Settled(c.state);
    assert CompleteAttempt(s, s.phase.id) == Ok(done);
    ClassifiedAs(s, calls);
    var r := Reduce(s, c.event, edges);
    IngressReduces(s, done, c.event.completion, edges, r);
    if s.phase.delayed && !Callerwards(s, calls) && !Mixed(s, calls) {
      var remote := RemoteCalls(s.mcp.value, calls);
      NoneRemote(s.mcp.value, calls);
      AffordableIsReserved(c.spent, s.mcp.value, remote);
      BatchRuns(c, done, remote, answer, r, p, Affordable(c.spent, |remote|),
                if Affordable(c.spent, |remote|) then Spent(c.spent.rounds + 1, c.spent.calls + |remote|) else c.spent);
    }
  }

  // ------------------------------------------------------------------- tool calls

  // Tool calls go out one at a time; after the last the same candidate is called
  // again, in the preferred form; a refused batch, a failed call or a request that
  // cannot be continued or prepared ends the run.
  lemma ToolTurn(c: Config, edges: Edges, answer: Answer, bound: nat, p: Progress)
    requires Inv(c, bound) && c.state.phase.CallingMcp? && p == Step(c, edges, answer)
    ensures var s, phase := c.state, c.state.phase;
            var next := if c.event.McpBatchStarted? then 0 else phase.next + 1;
            if !c.event.ok then Reports(s, p)
            else if next < |phase.calls| then
              p == Running(Config(s.(phase := CallingMcp(phase.candidate, phase.calls, next)), McpToolReturned(answer.tool), c.spent))
            else if edges.continuation && edges.prepare(Selection(phase.candidate, Preferred)).Ready? then
              && p.Running? && p.config.spent == c.spent
              && Issues(s, p.config.state, phase.candidate, Preferred, edges)
              && p.config.event == match answer.provider
                                   case Ok(completion) => ProviderIngressReceived(|s.attempts| + 1, completion)
                                   case Err(failure) => ProviderCallFailed(|s.attempts| + 1, failure)
            else Reports(s, p)
  {
    var s := c.state;
    assert Eligible(PlanOf(s), Last(s).candidate);
    NewRoundIsNew(s, Selection(s.phase.candidate, Preferred));
  }

  // ------------------------------------------------------------ what is commanded

  // The command a phase waits for the answer of; a batch is begun before its
  // first call.
  predicate Commands(s: State, command: Command, begun: bool) {
    match s.phase
    case LoadingCheckpoint(explicit) => command == LoadCheckpoint(explicit)
    case PreparingMcp => command == PrepareMcp
    case CallingProvider(id, _) => command == CallProvider(id)
    case ResolvingFacts(id) =>
      && 1 <= id <= |s.attempts|
      && command == CharacterizeFacts(id, s.attempts[id - 1].generation, s.attempts[id - 1].facts.Keys)
    case CallingMcp(_, calls, next) =>
      if begun then next < |calls| && command == CallMcp(calls[next]) else command == BeginMcpBatch(calls)
    case _ => false
  }

  lemma AdvanceCommands(s: State, edges: Edges, o: Exchange.Outcome)
    requires CanTerminate(s) && Advance(s, edges) == Ok(o)
    ensures if o.command.None? then Terminal(o.state.phase) else Commands(o.state, o.command.value, false)
  {
    if SelectNext(s).Some? {
      WalkCommands(s, SelectNext(s).value, edges, o);
    }
  }

  lemma {:induction false} WalkCommands(s: State, selection: Selection, edges: Edges, o: Exchange.Outcome)
    requires AdvanceFrom(s, selection, edges) == Ok(o)
    ensures if o.command.None? then Terminal(o.state.phase) else Commands(o.state, o.command.value, false)
    decreases |s.route| - selection.candidate
  {
    var seen := Evaluated(s, selection);
    if Prepare(seen, selection, edges).Unavailable? {
      var passed := seen.(skipped := seen.skipped + {selection.candidate});
      var next := NextEligible(passed, selection.candidate + 1);
      if next.Some? {
        WalkCommands(passed, next.value, edges, o);
      }
    }
  }

  // In every phase and for every event: a reduction that does not end the run
  // commands exactly what its new phase waits for, and one that ends it commands
  // nothing.
  lemma ReductionCommands(s: State, event: Event, edges: Edges, o: Exchange.Outcome)
    requires Reduce(s, event, edges) == Ok(o)
    ensures o.command.None? <==> Terminal(o.state.phase)
    ensures o.command.Some? ==> Commands(o.state, o.command.value, s.phase.CallingMcp?)
  {
    match s.phase
    case PreparingMcp =>
      if event.McpPrepared? && event.run.Some? && edges.finalize {
        AdvanceCommands(s.(drafted := false, prepared := true, mcp := event.run.value), edges, o);
      }
    case CallingProvider(id, _) => CallingCommands(s, event, edges, o);
    case ResolvingFacts(id) => ResolvingCommands(s, event, edges, o);
    case _ =>
  }

  lemma CallingCommands(s: State, event: Event, edges: Edges, o: Exchange.Outcome)
    requires s.phase.CallingProvider? && ReduceCalling(s, event, edges) == Ok(o)
    ensures if o.command.None? then Terminal(o.state.phase) else Commands(o.state, o.command.value, false)
  {
    var id := s.phase.id;
    if event.ProviderCallFailed? {
      var failed := FailAttempt(s, id, event.failure).value;
      if !CharacterizationAdmitted(s.attempts[id - 1], event.failure) {
        AdvanceCommands(failed, edges, o);
      }
    } else if event.completion.Undecodable? {
      AdvanceCommands(FailAttempt(s, id, Failure(MayHaveOccurred, event.completion.cause)).value, edges, o);
    }
  }

  lemma ResolvingCommands(s: State, event: Event, edges: Edges, o: Exchange.Outcome)
    requires s.phase.ResolvingFacts? && ReduceResolving(s, event, edges) == Ok(o)
    ensures if o.command.None? then Terminal(o.state.phase) else Commands(o.state, o.command.value, false)
  {
    var attempt := s.attempts[s.phase.id - 1];
    if FactsChanged(attempt.facts, event.resolutions) && DispatchCount(s.attempts, attempt.candidate, attempt.round) < 2 {
      WalkCommands(s, Selection(attempt.candidate, Reprojected), edges, o);
    } else {
      AdvanceCommands(s, edges, o);
    }
  }
}
