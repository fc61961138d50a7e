// The exchange reducer (internal/exchange/exchange_state.go and its
// neighbours): a closed machine of phases, events and commands that walks one
// frozen route plan. Everything outside Swobu, and every deterministic edge the
// reducer only consults, enters through Edges and Answers.
module Exchange {
  import opened Wrappers

  // ------------------------------------------------------------------- values

  datatype Target = Target(id: string, version: nat)

  datatype Choice = Preferred | FullHistory | Reprojected

  datatype Execution = NotDispatched | RejectedBeforeExecution | MayHaveOccurred

  // What can be found in the chain of a failure's cause.
  datatype Cause = Cause(
    unavailable: bool,
    rejected: bool,
    timeout: bool,
    backend: bool,
    referenceInvalid: bool
  )

  datatype Failure = Failure(execution: Execution, cause: Cause)

  datatype Status = Calling | Failed | HandoffReady

  datatype Attempt = Attempt(
    candidate: nat,
    choice: Choice,
    round: nat,
    native: bool,
    generation: Target,
    facts: map<string, bool>,
    status: Status,
    failure: Option<Failure>
  )

  datatype Selection = Selection(candidate: nat, choice: Choice)

  // A tool call in a completed assistant round.
  datatype Call = Call(tool: string, callerExecutes: bool)

  datatype Problem =
    | NoAvailableTarget
    | NoViableCandidate
    | ProviderTimeout
    | ProviderUnavailable
    | ProviderFailure(cause: Cause)
    | Reported

  datatype Phase =
    | Starting
    | LoadingCheckpoint(explicit: bool)
    | PreparingMcp
    | CallingProvider(id: nat, delayed: bool)
    | ResolvingFacts(id: nat)
    | CallingMcp(candidate: nat, calls: seq<Call>, next: nat)
    | Completed
    | Ended(problem: Problem)

  datatype Previous = NoPrevious | BlankPrevious | NamedPrevious

  // Control truth for one exchange. skipped records, for reasoning only, the
  // candidates whose preparation reported the target unavailable.
  datatype State = State(
    previous: Previous,
    rebased: bool,
    route: seq<Target>,
    backoff: set<Target>,
    drafted: bool,
    prepared: bool,
    mcp: Option<set<string>>,
    rounds: nat,
    attempts: seq<Attempt>,
    evaluated: nat,
    phase: Phase,
    skipped: set<nat>
  )

  datatype Completion = Undecodable(cause: Cause) | Decoded(calls: seq<Call>, handoff: bool)

  datatype Event =
    | Started
    | CheckpointLoaded(ok: bool, found: bool)
    | McpPrepared(run: Option<Option<set<string>>>)
    | McpBatchStarted(ok: bool)
    | McpToolReturned(ok: bool)
    | ProviderCallFailed(id: nat, failure: Failure)
    | ProviderIngressReceived(id: nat, completion: Completion)
    | FactsCharacterized(id: nat, generation: Target, resolutions: map<string, bool>)

  datatype Command =
    | LoadCheckpoint(explicit: bool)
    | PrepareMcp
    | CallProvider(id: nat)
    | CharacterizeFacts(id: nat, generation: Target, facts: set<string>)
    | BeginMcpBatch(calls: seq<Call>)
    | CallMcp(call: Call)

  // Deterministic edges the reducer consults while handling one event.
  datatype Edges = Edges(
    draft: bool,
    route: Option<seq<Target>>,
    finalize: bool,
    continuation: bool,
    prepare: Selection -> Preparation
  )

  datatype Preparation =
    | Ready(native: bool, facts: map<string, bool>, delayed: bool)
    | Unavailable
    | Broken

  datatype Outcome = Outcome(state: State, command: Option<Command>)

  // Errors that mean the machine itself went wrong.
  datatype Violation =
    | UnexpectedEvent
    | UnknownAttempt
    | AttemptMismatch
    | AttemptTerminal
    | AttemptNotFailed
    | GenerationChanged
    | AlreadyConsumed
    | EmptyBatch
    | MissingRun
    | CallIndex
    | MissingDraft
    | MissingRequest
    | NoCommand

  type Reduced = Result<Outcome, Violation>

  function Stop(s: State, problem: Problem): Reduced {
    Ok(Outcome(s.(phase := Ended(problem)), None))
  }

  // ---------------------------------------------------------------- selection

  predicate Suppressed(s: State, index: nat)
    requires index < |s.route|
  {
    s.route[index] in s.backoff
  }

  function NextEligible(s: State, start: nat): (r: Option<Selection>)
    ensures r.Some? ==>
              && start <= r.value.candidate < |s.route|
              && r.value.choice == Preferred
              && !Suppressed(s, r.value.candidate)
              && (forall i :: start <= i < r.value.candidate ==> Suppressed(s, i))
    ensures r.None? ==> forall i :: start <= i < |s.route| ==> Suppressed(s, i)
    decreases |s.route| - start
  {
    if start >= |s.route| then None
    else if Suppressed(s, start) then NextEligible(s, start + 1)
    else Some(Selection(start, Preferred))
  }

  method NextEligibleRouteCandidate(s: State, start: nat) returns (r: Option<Selection>)
    ensures r == NextEligible(s, start)
  {
    var index := start;
    while index < |s.route|
      invariant NextEligible(s, start) == NextEligible(s, index)
    {
      if s.route[index] !in s.backoff {
        return Some(Selection(index, Preferred));
      }
      index := index + 1;
    }
    return None;
  }

  // How often one candidate was dispatched in one provider round.
  function DispatchCount(attempts: seq<Attempt>, candidate: nat, round: nat): nat {
    if attempts == [] then 0
    else
      var last := attempts[|attempts| - 1];
      DispatchCount(attempts[..|attempts| - 1], candidate, round)
      + (if last.candidate == candidate && last.round == round then 1 else 0)
  }

  method CandidateRoundDispatchCount(attempts: seq<Attempt>, candidate: nat, round: nat) returns (count: nat)
    ensures count == DispatchCount(attempts, candidate, round)
  {
    count := 0;
    for i := 0 to |attempts|
      invariant count == DispatchCount(attempts[..i], candidate, round)
    {
      assert attempts[..i + 1][..i] == attempts[..i];
      if attempts[i].candidate == candidate && attempts[i].round == round {
        count := count + 1;
      }
    }
    assert attempts[..|attempts|] == attempts;
  }

  predicate AdmitsFullHistory(attempt: Attempt) {
    && attempt.failure.Some?
    && attempt.failure.value.execution == RejectedBeforeExecution
    && attempt.native
    && attempt.failure.value.cause.rejected
    && attempt.failure.value.cause.referenceInvalid
  }

  predicate RecoveryPermitted(attempt: Attempt) {
    attempt.failure.Some? && attempt.round == 0
  }

  predicate AdvancesCandidate(cause: Cause) {
    cause.unavailable || cause.rejected
  }

  predicate CharacterizationAdmitted(attempt: Attempt, failure: Failure) {
    attempt.round == 0 && attempt.facts != map[] && failure.cause.rejected
  }

  function SameTargetAlternative(attempts: seq<Attempt>): Option<Selection> {
    if attempts == [] then None
    else
      var last := attempts[|attempts| - 1];
      if DispatchCount(attempts, last.candidate, last.round) >= 2 then None
      else if AdmitsFullHistory(last) then Some(Selection(last.candidate, FullHistory))
      else None
  }

  function SelectNext(s: State): Option<Selection> {
    if s.attempts == [] then NextEligible(s, 0)
    else
      var last := s.attempts[|s.attempts| - 1];
      if last.status == Calling || last.status == HandoffReady then None
      else if SameTargetAlternative(s.attempts).Some? then SameTargetAlternative(s.attempts)
      else if !RecoveryPermitted(last) then None
      else if AdvancesCandidate(last.failure.value.cause) then NextEligible(s, last.candidate + 1)
      else None
  }

  // ----------------------------------------------------------- the attempt ledger

  function FailAttempt(s: State, id: nat, failure: Failure): Result<State, Violation> {
    if !(1 <= id <= |s.attempts|) then Err(UnknownAttempt)
    else if s.attempts[id - 1].status != Calling then Err(AttemptTerminal)
    else
      Ok(s.(attempts := s.attempts[id - 1 :=
        s.attempts[id - 1].(status := Failed, failure := Some(failure))]))
  }

  function CompleteAttempt(s: State, id: nat): Result<State, Violation> {
    if !(1 <= id <= |s.attempts|) then Err(UnknownAttempt)
    else if s.attempts[id - 1].status != Calling then Err(AttemptTerminal)
    else Ok(s.(attempts := s.attempts[id - 1 := s.attempts[id - 1].(status := HandoffReady)]))
  }

  predicate Consumed(s: State, selection: Selection) {
    exists i :: 0 <= i < |s.attempts|
      && s.attempts[i].candidate == selection.candidate
      && s.attempts[i].choice == selection.choice
      && s.attempts[i].round == s.rounds
  }

  function NewAttempt(s: State, selection: Selection, ready: Preparation): Attempt
    requires ready.Ready? && selection.candidate < |s.route|
  {
    Attempt(selection.candidate, selection.choice, s.rounds, ready.native && selection.choice != FullHistory,
            s.route[selection.candidate], ready.facts, Calling, None)
  }

  function BeginAttempt(s: State, selection: Selection, ready: Preparation): Reduced
    requires ready.Ready? && selection.candidate < |s.route|
  {
    if Consumed(s, selection) then Err(AlreadyConsumed)
    else
      var id := |s.attempts| + 1;
      var delayed := (s.mcp.Some? && s.mcp.value != {}) || ready.delayed;
      Ok(Outcome(
           s.(attempts := s.attempts + [NewAttempt(s, selection, ready)], phase := CallingProvider(id, delayed)),
           Some(CallProvider(id))))
  }

  // ------------------------------------------------------- provider execution

  function Prepare(s: State, selection: Selection, edges: Edges): Preparation {
    if selection.candidate >= |s.route| then Broken else edges.prepare(selection)
  }

  function Evaluated(s: State, selection: Selection): State {
    if selection.candidate + 1 > s.evaluated then s.(evaluated := selection.candidate + 1) else s
  }

  function AdvanceFrom(s: State, selection: Selection, edges: Edges): Reduced
    decreases |s.route| - selection.candidate
  {
    var seen := Evaluated(s, selection);
    match Prepare(seen, selection, edges)
    case Ready(native, facts, delayed) => BeginAttempt(seen, selection, Ready(native, facts, delayed))
    case Unavailable =>
      var passed := seen.(skipped := seen.skipped + {selection.candidate});
      var next := NextEligible(passed, selection.candidate + 1);
      if next.Some? then AdvanceFrom(passed, next.value, edges) else Stop(passed, Reported)
    case Broken => Stop(seen, Reported)
  }

  method AdvanceProviderExecutionFrom(start: State, from: Selection, edges: Edges) returns (r: Reduced)
    ensures r == AdvanceFrom(start, from, edges)
  {
    var s, selection := start, from;
    while true
      invariant AdvanceFrom(start, from, edges) == AdvanceFrom(s, selection, edges)
      decreases |s.route| - selection.candidate
    {
      if selection.candidate + 1 > s.evaluated {
        s := s.(evaluated := selection.candidate + 1);
      }
      var preparation := Prepare(s, selection, edges);
      if preparation.Ready? {
        return BeginAttempt(s, selection, preparation);
      }
      if preparation.Unavailable? {
        s := s.(skipped := s.skipped + {selection.candidate});
        var next := NextEligibleRouteCandidate(s, selection.candidate + 1);
        if next.Some? {
          selection := next.value;
          continue;
        }
      }
      return Stop(s, Reported);
    }
  }

  function ExhaustedProblem(cause: Cause): Problem {
    if cause.timeout then ProviderTimeout
    else if cause.unavailable && !cause.backend then ProviderUnavailable
    else ProviderFailure(cause)
  }

  // With attempts on record the last of them must have failed.
  predicate CanTerminate(s: State) {
    s.attempts == [] || s.attempts[|s.attempts| - 1].failure.Some?
  }

  function Terminate(s: State): Reduced
    requires CanTerminate(s)
  {
    if s.attempts == [] then
      if |s.route| > 0 then Stop(s.(evaluated := |s.route|), NoAvailableTarget)
      else Stop(s, NoViableCandidate)
    else Stop(s, ExhaustedProblem(s.attempts[|s.attempts| - 1].failure.value.cause))
  }

  function Advance(s: State, edges: Edges): Reduced
    requires CanTerminate(s)
  {
    if !s.prepared then Err(MissingRequest)
    else
      var selection := SelectNext(s);
      if selection.None? then Terminate(s) else AdvanceFrom(s, selection.value, edges)
  }

  // ------------------------------------------------------------------ reducers

  function BeginPreparation(s: State, edges: Edges): Reduced {
    if edges.route.None? then Stop(s, Reported)
    else
      var planned := s.(route := edges.route.value);
      if !planned.drafted then Err(MissingDraft)
      else Ok(Outcome(planned.(phase := PreparingMcp), Some(PrepareMcp)))
  }

  function ReduceStarting(s: State, event: Event, edges: Edges): Reduced {
    if !event.Started? then Err(UnexpectedEvent)
    else if s.previous.BlankPrevious? then Stop(s, Reported)
    else if s.previous.NamedPrevious? then
      Ok(Outcome(s.(phase := LoadingCheckpoint(true)), Some(LoadCheckpoint(true))))
    else if s.rebased then
      Ok(Outcome(s.(phase := LoadingCheckpoint(false)), Some(LoadCheckpoint(false))))
    else if !edges.draft then Stop(s, Reported)
    else BeginPreparation(s.(drafted := true), edges)
  }

  function ReduceLoading(s: State, event: Event, edges: Edges): Reduced
    requires s.phase.LoadingCheckpoint?
  {
    if !event.CheckpointLoaded? then Err(UnexpectedEvent)
    else if !event.ok then Stop(s, Reported)
    else if s.phase.explicit && !event.found then Stop(s, Reported)
    else if !edges.draft then Stop(s, Reported)
    else BeginPreparation(s.(drafted := true), edges)
  }

  function ReducePreparing(s: State, event: Event, edges: Edges): Reduced
    requires CanTerminate(s)
  {
    if !event.McpPrepared? then Err(UnexpectedEvent)
    else if event.run.None? then Stop(s, Reported)
    else if !edges.finalize then Stop(s, Reported)
    else Advance(s.(drafted := false, prepared := true, mcp := event.run.value), edges)
  }

  // Which calls of a completed round the MCP runtime owns. A round that mixes
  // them with caller-owned calls is refused.
  function RemoteCalls(bindings: set<string>, calls: seq<Call>): seq<Call> {
    if calls == [] then []
    else
      var last := calls[|calls| - 1];
      RemoteCalls(bindings, calls[..|calls| - 1]) + (if last.tool in bindings then [last] else [])
  }

  predicate CallerOwned(bindings: set<string>, call: Call) {
    call.tool !in bindings && call.callerExecutes
  }

  function Classify(run: Option<set<string>>, calls: seq<Call>): Option<seq<Call>> {
    if run.None? then Some([])
    else
      var remote := RemoteCalls(run.value, calls);
      if remote != [] && (exists i :: 0 <= i < |calls| && CallerOwned(run.value, calls[i])) then None
      else Some(remote)
  }

  function BeginBatch(s: State, phase: Phase): Reduced
    requires phase.CallingMcp?
  {
    if phase.calls == [] then Err(EmptyBatch)
    else if s.mcp.None? then Err(MissingRun)
    else Ok(Outcome(s.(phase := phase), Some(BeginMcpBatch(phase.calls))))
  }

  function BeginCall(s: State, phase: Phase): Reduced
    requires phase.CallingMcp?
  {
    if phase.next >= |phase.calls| then Err(CallIndex)
    else if s.mcp.None? then Err(MissingRun)
    else Ok(Outcome(s.(phase := phase), Some(CallMcp(phase.calls[phase.next]))))
  }

  function ReduceIngress(s: State, phase: Phase, attempt: Attempt, completion: Completion, edges: Edges): Reduced
    requires phase.CallingProvider?
  {
    if completion.Undecodable? then
      match FailAttempt(s, phase.id, Failure(MayHaveOccurred, completion.cause))
      case Err(violation) => Err(violation)
      case Ok(failed) => if CanTerminate(failed) then Advance(failed, edges) else Err(AttemptNotFailed)
    else
      match CompleteAttempt(s, phase.id)
      case Err(violation) => Err(violation)
      case Ok(done) =>
        if !phase.delayed then Ok(Outcome(done.(phase := Completed), None))
        else
          match Classify(done.mcp, completion.calls)
          case None => Stop(done, Reported)
          case Some(calls) =>
            if calls != [] then
              BeginBatch(done.(rounds := done.rounds + 1), CallingMcp(attempt.candidate, calls, 0))
            else if completion.handoff then Ok(Outcome(done.(phase := Completed), None))
            else Stop(done, Reported)
  }

  function ReduceCalling(s: State, event: Event, edges: Edges): Reduced
    requires s.phase.CallingProvider?
  {
    var id := s.phase.id;
    if !(1 <= id <= |s.attempts|) then Err(UnknownAttempt)
    else
      var attempt := s.attempts[id - 1];
      match event
      case ProviderCallFailed(answered, failure) =>
        if answered != id then Err(AttemptMismatch)
        else
          (match FailAttempt(s, id, failure)
           case Err(violation) => Err(violation)
           case Ok(failed) =>
             if CharacterizationAdmitted(attempt, failure) then
               Ok(Outcome(failed.(phase := ResolvingFacts(id)),
                          Some(CharacterizeFacts(id, attempt.generation, attempt.facts.Keys))))
             else if CanTerminate(failed) then Advance(failed, edges)
             else Err(AttemptNotFailed))
      case ProviderIngressReceived(answered, completion) =>
        if answered != id then Err(AttemptMismatch)
        else ReduceIngress(s, s.phase, attempt, completion, edges)
      case _ => Err(UnexpectedEvent)
  }

  predicate FactsChanged(facts: map<string, bool>, resolutions: map<string, bool>) {
    exists fact :: fact in resolutions && fact in facts && facts[fact] != resolutions[fact]
  }

  function ReduceResolving(s: State, event: Event, edges: Edges): Reduced
    requires s.phase.ResolvingFacts?
  {
    var id := s.phase.id;
    if !event.FactsCharacterized? || event.id != id then Err(UnexpectedEvent)
    else if !(1 <= id <= |s.attempts|) || s.attempts[id - 1].failure.None? then Err(AttemptNotFailed)
    else
      var attempt := s.attempts[id - 1];
      if event.generation != attempt.generation then Err(GenerationChanged)
      else if FactsChanged(attempt.facts, event.resolutions)
              && DispatchCount(s.attempts, attempt.candidate, attempt.round) < 2
      then AdvanceFrom(s, Selection(attempt.candidate, Reprojected), edges)
      else if CanTerminate(s) then Advance(s, edges)
      else Err(AttemptNotFailed)
  }

  function ReduceMcp(s: State, event: Event, edges: Edges): Reduced
    requires s.phase.CallingMcp?
  {
    var phase := s.phase;
    match event
    case McpBatchStarted(ok) => if !ok then Stop(s, Reported) else BeginCall(s, phase)
    case McpToolReturned(ok) =>
      if !ok then Stop(s, Reported)
      else
        var returned := phase.(next := phase.next + 1);
        if returned.next < |phase.calls| then BeginCall(s, returned)
        else if !edges.continuation then Stop(s, Reported)
        else
          (var selection := Selection(phase.candidate, Preferred);
           var preparation := Prepare(s, selection, edges);
           if preparation.Ready? then BeginAttempt(s, selection, preparation) else Stop(s, Reported))
    case _ => Err(UnexpectedEvent)
  }

  function Reduce(s: State, event: Event, edges: Edges): Reduced {
    match s.phase
    case Starting => ReduceStarting(s, event, edges)
    case LoadingCheckpoint(_) => ReduceLoading(s, event, edges)
    case PreparingMcp => if CanTerminate(s) then ReducePreparing(s, event, edges) else Err(AttemptNotFailed)
    case CallingProvider(_, _) => ReduceCalling(s, event, edges)
    case ResolvingFacts(_) => ReduceResolving(s, event, edges)
    case CallingMcp(_, _, _) => ReduceMcp(s, event, edges)
    case _ => Err(UnexpectedEvent)
  }

  // ----------------------------------------------------------------- execution

  const MAX_REMOTE_ROUNDS: nat := 8
  const MAX_REMOTE_CALLS: nat := 16

  // What the MCP runtime has spent.
  datatype Spent = Spent(rounds: nat, calls: nat)

  function Reserve(spent: Spent, bindings: set<string>, calls: seq<Call>): Option<Spent> {
    if calls == [] then None
    else if exists i :: 0 <= i < |calls| && calls[i].tool !in bindings then None
    else if spent.rounds >= MAX_REMOTE_ROUNDS || spent.calls + |calls| > MAX_REMOTE_CALLS then None
    else Some(Spent(spent.rounds + 1, spent.calls + |calls|))
  }

  // What the world answers to one command.
  datatype Answer = Answer(
    load: Option<bool>,
    run: Option<Option<set<string>>>,
    provider: Result<Completion, Failure>,
    facts: map<string, bool>,
    tool: bool
  )

  datatype Executed = Executed(event: Event, spent: Spent)

  function Execute(command: Command, answer: Answer, s: State, spent: Spent): Executed {
    match command
    case LoadCheckpoint(_) =>
      Executed(CheckpointLoaded(answer.load.Some?, answer.load.Some? && answer.load.value), spent)
    case PrepareMcp => Executed(McpPrepared(answer.run), spent)
    case CallProvider(id) =>
      Executed(
        match answer.provider
        case Ok(completion) => ProviderIngressReceived(id, completion)
        case Err(failure) => ProviderCallFailed(id, failure),
        spent)
    case CharacterizeFacts(id, generation, facts) =>
      Executed(FactsCharacterized(id, generation, map f | f in answer.facts && f in facts :: answer.facts[f]), spent)
    case BeginMcpBatch(calls) =>
      var reserved := if s.mcp.None? then None else Reserve(spent, s.mcp.value, calls);
      if reserved.Some? then Executed(McpBatchStarted(true), reserved.value)
      else Executed(McpBatchStarted(false), spent)
    case CallMcp(_) => Executed(McpToolReturned(answer.tool), spent)
  }

  // One turn of the driver loop: reduce, then execute the command.
  datatype Config = Config(state: State, event: Event, spent: Spent)

  datatype Progress = Running(config: Config) | Done(state: State) | Faulted(violation: Violation)

  predicate Terminal(phase: Phase) {
    phase.Completed? || phase.Ended?
  }

  function Step(config: Config, edges: Edges, answer: Answer): Progress {
    match Reduce(config.state, config.event, edges)
    case Err(violation) => Faulted(violation)
    case Ok(outcome) =>
      if Terminal(outcome.state.phase) then Done(outcome.state)
      else if outcome.command.None? then Faulted(NoCommand)
      else
        var executed := Execute(outcome.command.value, answer, outcome.state, config.spent);
        Running(Config(outcome.state, executed.event, executed.spent))
  }

  function Initial(previous: Previous, rebased: bool, backoff: set<Target>): Config {
    Config(
      State(previous, rebased, [], backoff, false, false, None, 0, [], 0, Starting, {}),
      Started, Spent(0, 0))
  }
}
