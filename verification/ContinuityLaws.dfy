// What continuity resolution promises: an in-process tool continuation is a
// checkpoint followed by a resume, provider-known history is omitted exactly,
// and the storage evidence carried along a chain of rounds is always exact.
module ContinuityLaws {
  import opened Wrappers
  import opened Text
  import opened Canonical
  import opened CheckpointStore
  import opened Continuity
  import opened StoreHistories

  // Every resolved request has these: no selector, a stated model, a layout
  // that splits.
  predicate Shaped(resolved: Resolved) {
    && resolved.request.previous.None?
    && resolved.request.model.Some?
    && SplitRequestPrelude(resolved.request.items).Some?
  }

  predicate LocalResults(results: seq<Item>) {
    forall i :: 0 <= i < |results| ==> results[i].ToolResult?
  }

  predicate SameOutcome(a: Outcome, b: Outcome) {
    a.Ok? == b.Ok? && (a.Ok? ==> a == b)
  }

  // ------------------------------------------- continuation equals resumption

  // The request a client would send to resume with only these results,
  // naming its predecessor explicitly or not.
  function ResumingRequest(resolved: Resolved, response: Response, results: seq<Item>, named: bool): Request {
    WithItems(resolved.request, results).(previous :=
      if named then Some(ResponseRef(response.ref.swobuId, None, None)) else None)
  }

  // Repeating an unfinished turn's context in front of bare results restores
  // the earlier prelude.
  lemma RepeatRestoresPrelude(previous: Request, current: Request)
    requires SplitRequestPrelude(previous.items).Some?
    requires LocalResults(current.items)
    ensures RepeatContext(previous, current)
            == Ok(WithItems(current, SplitRequestPrelude(previous.items).value.prelude.items + current.items))
  {
    var earlier := SplitRequestPrelude(previous.items).value.prelude;
    SplitAtSeam([], current.items);
    assert [] + current.items == current.items;
    PreludeIsItsBands(earlier.items);
  }

  // The prelude in force when a request resumes an unfinished turn: each band is
  // the request's own if it has one and the earlier request's otherwise.
  predicate InForce(result: Prelude, earlier: Prelude, latest: Prelude) {
    && result.directives == (if latest.directives != [] then latest.directives else earlier.directives)
    && result.declarations == (if latest.declarations != [] then latest.declarations else earlier.declarations)
    && (result.directives != [] && result.declarations != [] ==>
          result.toolsFirst ==
            if latest.directives != [] && latest.declarations != [] then latest.toolsFirst else earlier.toolsFirst)
  }

  lemma BandsInForce(directives: seq<Item>, declarations: seq<Item>, toolsFirst: bool, history: seq<Item>)
    requires AllScoped(directives) && AllOfBand(directives, true)
    requires AllScoped(declarations) && AllOfBand(declarations, false) && NoneScoped(history)
    ensures var prelude := if toolsFirst then declarations + directives else directives + declarations;
            && SplitRequestPrelude(prelude + history) == Some(Split(PreludeOf(prelude), history))
            && PreludeOf(prelude).directives == directives && PreludeOf(prelude).declarations == declarations
            && (directives != [] && declarations != [] ==> PreludeOf(prelude).toolsFirst == toolsFirst)
  {
    var first := if toolsFirst then declarations else directives;
    var second := if toolsFirst then directives else declarations;
    BandsMakePrelude(first, second, !toolsFirst);
    SplitAtSeam(first + second, history);
  }

  lemma BandsOf(prelude: Prelude, items: seq<Item>)
    requires prelude == PreludeOf(items) && AllScoped(items)
    ensures AllScoped(prelude.directives) && AllOfBand(prelude.directives, true)
    ensures AllScoped(prelude.declarations) && AllOfBand(prelude.declarations, false)
  {
  }

  // Repeating an unfinished turn's context succeeds exactly when both requests are
  // laid out, keeps the new request but for its items, its history and each band
  // it brings, and takes the bands it does not bring from the earlier request.
  lemma RepeatedContext(previous: Request, current: Request, r: Result<Request, Problem>)
    requires r == RepeatContext(previous, current)
    ensures r.Ok? <==> SplitRequestPrelude(previous.items).Some? && SplitRequestPrelude(current.items).Some?
    ensures r.Ok? ==>
              && r.value == WithItems(current, r.value.items)
              && SplitRequestPrelude(r.value.items).Some?
              && var result := SplitRequestPrelude(r.value.items).value;
                 var latest := SplitRequestPrelude(current.items).value;
                 && result.history == latest.history
                 && InForce(result.prelude, SplitRequestPrelude(previous.items).value.prelude, latest.prelude)
  {
    if r.Ok? {
      var earlier := SplitRequestPrelude(previous.items).value.prelude;
      var latest := SplitRequestPrelude(current.items).value;
      BandsOf(earlier, earlier.items);
      BandsOf(latest.prelude, latest.prelude.items);
      var directives := if latest.prelude.directives == [] then earlier.directives else latest.prelude.directives;
      var tools := if latest.prelude.declarations == [] then earlier.declarations else latest.prelude.declarations;
      var toolsFirst :=
        if latest.prelude.directives != [] && latest.prelude.declarations != [] then latest.prelude.toolsFirst
        else earlier.toolsFirst;
      BandsInForce(directives, tools, toolsFirst, latest.history);
    }
  }

  lemma ComposeIs(previous: Checkpoint, current: Request, split: Split, known: seq<Item>, items: seq<Item>)
    requires SplitRequestPrelude(current.items) == Some(split) && current.model.Some?
    requires known == RetainedHistory(previous.request.items) + previous.response.items
    requires items == split.prelude.items + known + split.history
    ensures Compose(previous, current) ==
            if |split.prelude.items| + |known| > MAX_UINT32 then Err(CoordinateRange)
            else Ok(Composed(current.(items := items, previous := None),
                             Range(|split.prelude.items|, |split.prelude.items| + |known|)))
  {
  }

  lemma ComposeAppends(request: Request, checkpoint: Checkpoint, results: seq<Item>, current: Request)
    requires checkpoint.request == request && request.previous.None? && request.model.Some?
    requires SplitRequestPrelude(request.items).Some?
    requires LocalResults(results)
    requires current == WithItems(request, SplitRequestPrelude(request.items).value.prelude.items + results)
    ensures var known := request.items + checkpoint.response.items;
            var prelude := SplitRequestPrelude(request.items).value.prelude.items;
            && SplitRequestPrelude(current.items) == Some(Split(PreludeOf(prelude), results))
            && Compose(checkpoint, current) ==
               if |known| > MAX_UINT32 then Err(CoordinateRange)
               else Ok(Composed(WithItems(request, known + results), Range(|prelude|, |known|)))
  {
    var split := SplitRequestPrelude(request.items).value;
    SplitAtSeam(split.prelude.items, results);
    SplitRetains(request.items);
    SplitParts(request.items);
    ComposeResumed(checkpoint, current, split, results);
  }

  lemma ComposeResumed(checkpoint: Checkpoint, current: Request, split: Split, results: seq<Item>)
    requires current.model.Some? && RetainedHistory(checkpoint.request.items) == split.history
    requires checkpoint.request.items == split.prelude.items + split.history
    requires SplitRequestPrelude(current.items) == Some(Split(split.prelude, results))
    ensures var known := checkpoint.request.items + checkpoint.response.items;
            Compose(checkpoint, current) ==
            if |known| > MAX_UINT32 then Err(CoordinateRange)
            else Ok(Composed(current.(items := known + results, previous := None), Range(|split.prelude.items|, |known|)))
  {
    var answer := checkpoint.response.items;
    AppendedParts(checkpoint.request.items, split.prelude.items, split.history, split.history + answer, answer, results);
    ComposeIs(checkpoint, current, Split(split.prelude, results), split.history + answer,
              checkpoint.request.items + answer + results);
  }

  lemma SliceMiddle(a: seq<Item>, b: seq<Item>, c: seq<Item>, all: seq<Item>)
    requires all == a + b + c
    ensures all[|a|..|a| + |b|] == b
  {
  }

  // Items cut at the seam, with an answer and results appended.
  lemma AppendedParts(
    items: seq<Item>, prelude: seq<Item>, history: seq<Item>, known: seq<Item>, answer: seq<Item>, results: seq<Item>)
    requires items == prelude + history && known == history + answer
    ensures items + answer + results == prelude + known + results
    ensures |items + answer| == |prelude| + |known|
  {
    Regroup(prelude, history, answer, results);
  }

  lemma SplitParts(items: seq<Item>)
    requires SplitRequestPrelude(items).Some?
    ensures var split := SplitRequestPrelude(items).value; items == split.prelude.items + split.history
  {
  }

  lemma Regroup(a: seq<Item>, b: seq<Item>, c: seq<Item>, d: seq<Item>)
    ensures a + (b + c) + d == (a + b) + c + d
  {
    assert a + (b + c) == (a + b) + c;
  }

  lemma RegroupTail(a: seq<Item>, b: seq<Item>, c: seq<Item>, d: seq<Item>)
    ensures (a + b) + c + d == a + (b + c + d)
  {
  }

  // Appending a response and results keeps the split at the same seam.
  lemma AppendKeepsSeam(items: seq<Item>, response: Response, results: seq<Item>)
    requires SplitRequestPrelude(items).Some?
    requires WellFormedResponse(response) && LocalResults(results)
    ensures var split := SplitRequestPrelude(items).value;
            SplitRequestPrelude(items + response.items + results)
            == Some(Split(split.prelude, split.history + response.items + results))
  {
    var split := SplitRequestPrelude(items).value;
    ResponseItemsAreHistory(response);
    var tail := split.history + response.items + results;
    SplitAtSeam(split.prelude.items, tail);
    RegroupTail(split.prelude.items, split.history, response.items, results);
    assert PreludeOf(split.prelude.items) == split.prelude;
  }

  // Continuing in process after local results is checkpointing the completed
  // response and resuming with exactly those results: same items, same fields,
  // same omitted range, and success in exactly the same cases.
  lemma ContinuationIsResume(
    resolved: Resolved, response: Response, results: seq<Item>, checkpoint: Checkpoint, named: bool, rules: Rules)
    requires Shaped(resolved) && WellFormedResponse(response)
    requires results != [] && LocalResults(results) && Correlated(results, Pending(response.items))
    requires checkpoint.request == resolved.request && checkpoint.response == response
    ensures SameOutcome(ContinueAfterLocalResult(resolved, response, results, rules),
                        Resume(ResumingRequest(resolved, response, results, named), checkpoint, rules))
  {
    var request := resolved.request;
    var split := SplitRequestPrelude(request.items).value;
    var current := WithItems(request, results);
    var known := request.items + response.items;
    assert results[0].callId in ResultIds(results);
    RepeatRestoresPrelude(request, current);
    var effective := WithItems(request, split.prelude.items + results);
    assert TurnContinuation(checkpoint, current) == Ok(effective);
    ComposeAppends(request, checkpoint, results, effective);
    AppendKeepsSeam(request.items, response, results);
    if CommittedRef(response.ref) {
      assert PrepareResume(ResumingRequest(resolved, response, results, named), checkpoint)
          == Ok(Draft(effective, Some(checkpoint)));
    }
  }

  // ------------------------------------------------------------- whole chains

  // What a codec makes of a request that repeats its history: the fingerprint of
  // the repeated part, and the request without it.
  datatype Rebased = Rebased(history: History, current: Request)

  datatype Origin =
    | Fresh(request: Request, rebased: Option<Rebased>)
    | Loaded(request: Request, checkpoint: Checkpoint)

  // How many items of the request's history the codec counts as repeated.
  function RepeatedCount(request: Request, rebased: Rebased): int {
    |RetainedHistory(request.items)| - |RetainedHistory(rebased.current.items)|
  }

  // The storage evidence an exchange carries from its origin to its commit.
  function EvidenceOf(origin: Origin): StorageReuse {
    match origin
    case Loaded(_, checkpoint) => ReuseCheckpoint(checkpoint)
    case Fresh(request, Some(rebased)) => ReuseVisibleHistory(rebased.history, RepeatedCount(request, rebased))
    case Fresh(_, None) => NO_REUSE
  }

  // One provider response answered by local tool results.
  datatype Round = Round(response: Response, results: seq<Item>)

  predicate WellFormedRound(round: Round) {
    WellFormedResponse(round.response) && LocalResults(round.results)
  }

  predicate WellFormedRounds(rounds: seq<Round>) {
    forall i :: 0 <= i < |rounds| ==> WellFormedRound(rounds[i])
  }

  function DraftOf(origin: Origin, rules: Rules): Result<Draft, Problem> {
    match origin
    case Fresh(request, _) => PrepareBegin(request, rules)
    case Loaded(request, checkpoint) => PrepareResume(request, checkpoint)
  }

  // An exchange's request history: resolve, let MCP preparation rewrite the
  // prelude, then any number of local tool rounds.
  function RunChain(origin: Origin, prepared: Request, rounds: seq<Round>, rules: Rules): Outcome {
    if rounds == [] then
      match DraftOf(origin, rules)
      case Err(problem) => Err(problem)
      case Ok(draft) => Finalize(draft, prepared, rules)
    else
      var last := rounds[|rounds| - 1];
      match RunChain(origin, prepared, rounds[..|rounds| - 1], rules)
      case Err(problem) => Err(problem)
      case Ok(resolved) => ContinueAfterLocalResult(resolved, last.response, last.results, rules)
  }

  // The history and response a provider already holds after the chain.
  function KnownItems(origin: Origin, prepared: Request, rounds: seq<Round>, rules: Rules): seq<Item>
    requires rounds != [] ==> RunChain(origin, prepared, rounds[..|rounds| - 1], rules).Ok?
  {
    if rounds != [] then
      var before := RunChain(origin, prepared, rounds[..|rounds| - 1], rules).value;
      RetainedHistory(before.request.items) + rounds[|rounds| - 1].response.items
    else if origin.Loaded? then
      RetainedHistory(origin.checkpoint.request.items) + origin.checkpoint.response.items
    else []
  }

  function LastAnswer(origin: Origin, rounds: seq<Round>): Option<ResponseRef> {
    if rounds != [] then Some(rounds[|rounds| - 1].response.ref)
    else if origin.Loaded? then Some(origin.checkpoint.response.ref)
    else None
  }

  // The omitted range starts right after the prelude, covers exactly what the
  // named response's provider already holds, and is offered exactly when that
  // response left a native handle.
  ghost predicate OmitsExactly(resolved: Resolved, known: seq<Item>, answer: Option<ResponseRef>) {
    && (resolved.previous.Some? <==> answer.Some? && (answer.value.responses.Some? || answer.value.interactions.Some?))
    && (resolved.previous.Some? ==>
          var omit := resolved.previous.value.omit;
          && resolved.previous.value.response == answer.value
          && SplitRequestPrelude(resolved.request.items).Some?
          && omit.start == |SplitRequestPrelude(resolved.request.items).value.prelude.items|
          && omit.start <= omit.end <= |resolved.request.items|
          && resolved.request.items[omit.start..omit.end] == known)
  }

  predicate WellFormedOrigin(origin: Origin) {
    origin.Loaded? ==> WellFormedResponse(origin.checkpoint.response)
  }

  lemma FinalizedIsShaped(draft: Draft, prepared: Request, rules: Rules, resolved: Resolved)
    requires Finalize(draft, prepared, rules) == Ok(resolved)
    requires draft.current.model.Some? || draft.checkpoint.Some?
    ensures Shaped(resolved)
  {
  }

  lemma FinalizeIs(draft: Draft, prepared: Request, rules: Rules, resolved: Resolved, composed: Composed)
    requires draft.checkpoint.Some? && Finalize(draft, prepared, rules) == Ok(resolved)
    requires Compose(draft.checkpoint.value, prepared) == Ok(composed)
    ensures resolved == Resolved(composed.request, NativePrevious(draft.checkpoint.value.response.ref, composed.omit))
  {
  }

  // What finalizing composes: the prepared prelude, then what the checkpoint's
  // provider holds, then the new history.
  lemma FinalizedComposes(draft: Draft, prepared: Request, rules: Rules, resolved: Resolved, known: seq<Item>)
    returns (split: Split)
    requires draft.checkpoint.Some? && Finalize(draft, prepared, rules) == Ok(resolved)
    requires known == RetainedHistory(draft.checkpoint.value.request.items) + draft.checkpoint.value.response.items
    ensures SplitRequestPrelude(prepared.items) == Some(split)
    ensures resolved.request.items == split.prelude.items + known + split.history
    ensures resolved.previous
         == NativePrevious(draft.checkpoint.value.response.ref,
                           Range(|split.prelude.items|, |split.prelude.items| + |known|))
  {
    var composed := Compose(draft.checkpoint.value, prepared).value;
    FinalizeIs(draft, prepared, rules, resolved, composed);
    split := ComposedParts(draft.checkpoint.value, prepared, composed, known);
  }

  lemma ComposedParts(previous: Checkpoint, current: Request, composed: Composed, known: seq<Item>) returns (split: Split)
    requires Compose(previous, current) == Ok(composed)
    requires known == RetainedHistory(previous.request.items) + previous.response.items
    ensures SplitRequestPrelude(current.items) == Some(split)
    ensures composed.request.items == split.prelude.items + known + split.history
    ensures composed.omit == Range(|split.prelude.items|, |split.prelude.items| + |known|)
  {
    split := SplitRequestPrelude(current.items).value;
  }

  lemma ComposedOmitsExactly(
    resolved: Resolved, prelude: seq<Item>, known: seq<Item>, history: seq<Item>, items: seq<Item>, ref: ResponseRef)
    requires resolved.request.items == items && items == prelude + known + history
    requires resolved.previous == NativePrevious(ref, Range(|prelude|, |prelude| + |known|))
    requires SplitRequestPrelude(items).Some? && SplitRequestPrelude(items).value.prelude.items == prelude
    requires RetainedHistory(items) == known + history
    ensures OmitsExactly(resolved, known, Some(ref)) && known <= RetainedHistory(items)
  {
    SliceMiddle(prelude, known, history, items);
  }

  lemma NoneScopedJoins(a: seq<Item>, b: seq<Item>)
    requires NoneScoped(a) && NoneScoped(b)
    ensures NoneScoped(a + b)
  {
  }

  lemma RegroupThree(a: seq<Item>, b: seq<Item>, c: seq<Item>)
    ensures a + b + c == a + (b + c)
  {
  }

  lemma SplitsAt(prelude: seq<Item>, known: seq<Item>, history: seq<Item>, items: seq<Item>)
    requires AllScoped(prelude) && Transitions(prelude) <= 1 && NoneScoped(known) && NoneScoped(history)
    requires items == prelude + known + history
    ensures SplitRequestPrelude(items) == Some(Split(PreludeOf(prelude), known + history))
    ensures RetainedHistory(items) == known + history
  {
    NoneScopedJoins(known, history);
    RegroupThree(prelude, known, history);
    SplitAtSeam(prelude, known + history);
  }

  // A request that is a prelude, what the provider holds and what is new, with
  // the range of the second, omits exactly that.
  lemma SeamOmitsExactly(
    resolved: Resolved, prelude: seq<Item>, known: seq<Item>, history: seq<Item>, items: seq<Item>, ref: ResponseRef)
    requires AllScoped(prelude) && Transitions(prelude) <= 1 && NoneScoped(known) && NoneScoped(history)
    requires resolved.request.items == items && items == prelude + known + history
    requires resolved.previous == NativePrevious(ref, Range(|prelude|, |prelude| + |known|))
    ensures SplitRequestPrelude(items).Some? && OmitsExactly(resolved, known, Some(ref))
    ensures RetainedHistory(items) == known + history
  {
    SplitsAt(prelude, known, history, items);
    ComposedOmitsExactly(resolved, prelude, known, history, items, ref);
  }

  lemma FinalizedOmitsExactly(draft: Draft, prepared: Request, rules: Rules, resolved: Resolved, known: seq<Item>)
    requires draft.checkpoint.Some? && Finalize(draft, prepared, rules) == Ok(resolved)
    requires WellFormedResponse(draft.checkpoint.value.response)
    requires known == RetainedHistory(draft.checkpoint.value.request.items) + draft.checkpoint.value.response.items
    ensures OmitsExactly(resolved, known, Some(draft.checkpoint.value.response.ref))
    ensures known <= RetainedHistory(resolved.request.items)
  {
    var split := FinalizedComposes(draft, prepared, rules, resolved, known);
    KnownIsUnscoped(draft.checkpoint.value, known);
    PreparedOmitsExactly(resolved, prepared.items, split, known, resolved.request.items, draft.checkpoint.value.response.ref);
  }

  lemma KnownIsUnscoped(checkpoint: Checkpoint, known: seq<Item>)
    requires WellFormedResponse(checkpoint.response)
    requires known == RetainedHistory(checkpoint.request.items) + checkpoint.response.items
    ensures NoneScoped(known)
  {
    ResponseItemsAreHistory(checkpoint.response);
    NoneScopedJoins(RetainedHistory(checkpoint.request.items), checkpoint.response.items);
  }

  lemma PreparedOmitsExactly(
    resolved: Resolved, prepared: seq<Item>, split: Split, known: seq<Item>, items: seq<Item>, ref: ResponseRef)
    requires SplitRequestPrelude(prepared) == Some(split) && NoneScoped(known) && resolved.request.items == items
    requires items == split.prelude.items + known + split.history
    requires resolved.previous == NativePrevious(ref, Range(|split.prelude.items|, |split.prelude.items| + |known|))
    ensures OmitsExactly(resolved, known, Some(ref)) && known <= RetainedHistory(items)
  {
    SeamOmitsExactly(resolved, split.prelude.items, known, split.history, items, ref);
  }

  lemma ContinueIs(
    resolved: Resolved, response: Response, results: seq<Item>, rules: Rules, next: Resolved, items: seq<Item>, split: Split)
    requires ContinueAfterLocalResult(resolved, response, results, rules) == Ok(next)
    requires items == resolved.request.items + response.items + results && SplitRequestPrelude(items) == Some(split)
    ensures next.request == WithItems(resolved.request, items)
    ensures next.previous
         == NativePrevious(response.ref, Range(|split.prelude.items|, |resolved.request.items + response.items|))
  {
  }

  // What continuing appends.
  lemma ContinuedAppends(
    resolved: Resolved, response: Response, results: seq<Item>, rules: Rules, next: Resolved, split: Split, all: seq<Item>)
    requires Shaped(resolved) && SplitRequestPrelude(resolved.request.items) == Some(split)
    requires all == resolved.request.items + response.items + results
    requires SplitRequestPrelude(all) == Some(Split(split.prelude, split.history + response.items + results))
    requires ContinueAfterLocalResult(resolved, response, results, rules) == Ok(next)
    ensures next.request.items == split.prelude.items + (split.history + response.items) + results
    ensures next.request.previous.None? && next.request.model.Some?
    ensures var n := |split.prelude.items|;
            next.previous == NativePrevious(response.ref, Range(n, n + |split.history + response.items|))
  {
    ContinueIs(resolved, response, results, rules, next, all, Split(split.prelude, split.history + response.items + results));
    SplitParts(resolved.request.items);
    AppendedParts(resolved.request.items, split.prelude.items, split.history, split.history + response.items, response.items,
                  results);
  }

  lemma ContinuedFacts(
    resolved: Resolved, response: Response, results: seq<Item>, rules: Rules, next: Resolved, split: Split)
    requires Shaped(resolved) && WellFormedResponse(response) && LocalResults(results)
    requires ContinueAfterLocalResult(resolved, response, results, rules) == Ok(next)
    requires SplitRequestPrelude(resolved.request.items) == Some(split)
    ensures next.request.items == split.prelude.items + (split.history + response.items) + results
    ensures next.request.previous.None? && next.request.model.Some?
    ensures var n := |split.prelude.items|;
            next.previous == NativePrevious(response.ref, Range(n, n + |split.history + response.items|))
  {
    AppendKeepsSeam(resolved.request.items, response, results);
    ContinuedAppends(resolved, response, results, rules, next, split, resolved.request.items + response.items + results);
  }

  lemma KnownIsHistory(items: seq<Item>, response: Response, split: Split)
    requires SplitRequestPrelude(items) == Some(split) && WellFormedResponse(response)
    ensures NoneScoped(split.history + response.items)
    ensures AllScoped(split.prelude.items) && Transitions(split.prelude.items) <= 1
  {
    ResponseItemsAreHistory(response);
    NoneScopedJoins(split.history, response.items);
  }

  lemma ContinuedOmitsAt(
    resolved: Resolved, response: Response, results: seq<Item>, rules: Rules, next: Resolved, split: Split, known: seq<Item>)
    requires Shaped(resolved) && WellFormedResponse(response) && LocalResults(results)
    requires ContinueAfterLocalResult(resolved, response, results, rules) == Ok(next)
    requires SplitRequestPrelude(resolved.request.items) == Some(split) && known == split.history + response.items
    ensures Shaped(next) && OmitsExactly(next, known, Some(response.ref))
    ensures RetainedHistory(next.request.items) == known + results
  {
    ContinuedFacts(resolved, response, results, rules, next, split);
    KnownIsHistory(resolved.request.items, response, split);
    SeamOmitsExactly(next, split.prelude.items, known, results, next.request.items, response.ref);
  }

  lemma ContinuedOmitsExactly(
    resolved: Resolved, response: Response, results: seq<Item>, rules: Rules, next: Resolved, known: seq<Item>)
    requires Shaped(resolved) && WellFormedResponse(response) && LocalResults(results)
    requires ContinueAfterLocalResult(resolved, response, results, rules) == Ok(next)
    requires known == RetainedHistory(resolved.request.items) + response.items
    ensures Shaped(next) && OmitsExactly(next, known, Some(response.ref))
    ensures RetainedHistory(next.request.items) == known + results
  {
    var split := SplitRequestPrelude(resolved.request.items).value;
    SplitRetains(resolved.request.items);
    ContinuedOmitsAt(resolved, response, results, rules, next, split, known);
  }

  // The history an exchange starts from.
  function Inherited(origin: Origin): seq<Item> {
    match origin
    case Fresh(request, _) => RetainedHistory(request.items)
    case Loaded(_, checkpoint) => RetainedHistory(checkpoint.request.items) + checkpoint.response.items
  }

  // The history still begins with the one the exchange started from.
  ghost predicate Begins(origin: Origin, items: seq<Item>) {
    Inherited(origin) <= RetainedHistory(items)
  }

  lemma LoadedStarts(request: Request, checkpoint: Checkpoint, prepared: Request, rules: Rules, draft: Draft, resolved: Resolved)
    requires WellFormedResponse(checkpoint.response) && PrepareResume(request, checkpoint) == Ok(draft)
    requires Finalize(draft, prepared, rules) == Ok(resolved)
    ensures var known := RetainedHistory(checkpoint.request.items) + checkpoint.response.items;
            && Shaped(resolved) && OmitsExactly(resolved, known, Some(checkpoint.response.ref))
            && known <= RetainedHistory(resolved.request.items)
  {
    ResumeDrafts(request, checkpoint, draft);
    FinalizedIsShaped(draft, prepared, rules, resolved);
    FinalizedOmitsExactly(draft, prepared, rules, resolved,
                          RetainedHistory(checkpoint.request.items) + checkpoint.response.items);
  }

  lemma ResumeDrafts(request: Request, checkpoint: Checkpoint, draft: Draft)
    requires PrepareResume(request, checkpoint) == Ok(draft)
    ensures draft.checkpoint == Some(checkpoint)
  {
  }

  lemma FreshStarts(request: Request, prepared: Request, rules: Rules, draft: Draft, resolved: Resolved)
    requires PrepareBegin(request, rules) == Ok(draft) && Finalize(draft, prepared, rules) == Ok(resolved)
    ensures Shaped(resolved) && resolved.previous.None?
    ensures RetainedHistory(resolved.request.items) == RetainedHistory(request.items)
  {
    FinalizedIsShaped(draft, prepared, rules, resolved);
    BeginDrafts(request, rules, draft);
    FinalizedFresh(draft, prepared, rules, resolved);
    SplitRetains(request.items);
    SplitRetains(prepared.items);
  }

  lemma BeginDrafts(request: Request, rules: Rules, draft: Draft)
    requires PrepareBegin(request, rules) == Ok(draft)
    ensures draft.checkpoint.None? && draft.current.items == request.items && draft.current.model.Some?
  {
  }

  lemma FinalizedFresh(draft: Draft, prepared: Request, rules: Rules, resolved: Resolved)
    requires draft.checkpoint.None? && Finalize(draft, prepared, rules) == Ok(resolved)
    ensures SplitRequestPrelude(draft.current.items).Some? && SplitRequestPrelude(prepared.items).Some?
    ensures SplitRequestPrelude(draft.current.items).value.history == SplitRequestPrelude(prepared.items).value.history
    ensures resolved == Resolved(prepared, None)
  {
  }

  lemma ChainStarts(origin: Origin, prepared: Request, rules: Rules, resolved: Resolved, known: seq<Item>)
    requires WellFormedOrigin(origin) && RunChain(origin, prepared, [], rules) == Ok(resolved)
    requires known == KnownItems(origin, prepared, [], rules)
    ensures Shaped(resolved) && OmitsExactly(resolved, known, LastAnswer(origin, [])) && Begins(origin, resolved.request.items)
  {
    var draft := DraftOf(origin, rules).value;
    if origin.Loaded? {
      LoadedStarts(origin.request, origin.checkpoint, prepared, rules, draft, resolved);
    } else {
      FreshStarts(origin.request, prepared, rules, draft, resolved);
    }
  }

  lemma BeginsLonger(origin: Origin, before: seq<Item>, known: seq<Item>, answer: seq<Item>, after: seq<Item>, results: seq<Item>)
    requires Begins(origin, before) && known == RetainedHistory(before) + answer && RetainedHistory(after) == known + results
    ensures Begins(origin, after)
  {
  }

  // Along every chain of resumption, preparation and tool rounds the result is
  // well shaped, omits exactly what the provider holds, and still begins with
  // the history the exchange started from.
  lemma {:induction false} ChainLaw(
    origin: Origin, prepared: Request, rounds: seq<Round>, rules: Rules, resolved: Resolved)
    requires RunChain(origin, prepared, rounds, rules) == Ok(resolved)
    requires WellFormedOrigin(origin) && WellFormedRounds(rounds)
    ensures Shaped(resolved)
    ensures OmitsExactly(resolved, KnownItems(origin, prepared, rounds, rules), LastAnswer(origin, rounds))
    ensures Begins(origin, resolved.request.items)
    decreases |rounds|
  {
    if rounds == [] {
      ChainStarts(origin, prepared, rules, resolved, KnownItems(origin, prepared, rounds, rules));
    } else {
      var front, last := rounds[..|rounds| - 1], rounds[|rounds| - 1];
      assert WellFormedRound(last);
      var before := RunChain(origin, prepared, front, rules).value;
      ChainLaw(origin, prepared, front, rules, before);
      var known := KnownItems(origin, prepared, rounds, rules);
      ContinuedOmitsExactly(before, last.response, last.results, rules, resolved, known);
      BeginsLonger(origin, before.request.items, known, last.response.items, resolved.request.items, last.results);
    }
  }

  lemma AnswerIsCommitted(origin: Origin, prepared: Request, rounds: seq<Round>, rules: Rules)
    requires RunChain(origin, prepared, rounds, rules).Ok? && LastAnswer(origin, rounds).Some?
    ensures CommittedRef(LastAnswer(origin, rounds).value)
  {
  }

  // A target generation is offered the provider's own history exactly when the
  // last response left a handle bound to that very generation and the request may
  // be stored. What it is then told to leave out is exactly what that response's
  // provider holds, and no other generation is offered it.
  lemma OfferedExactlyWhen(
    origin: Origin, prepared: Request, rounds: seq<Round>, rules: Rules, resolved: Resolved,
    target: string, version: nat, other: string, otherVersion: nat)
    requires RunChain(origin, prepared, rounds, rules) == Ok(resolved)
    requires WellFormedOrigin(origin) && WellFormedRounds(rounds)
    ensures var offered := OfferedHistory(resolved, target, version);
            && (offered.Some? <==>
                  && LastAnswer(origin, rounds).Some? && AppliesTo(LastAnswer(origin, rounds).value, target, version)
                  && resolved.request.controls.store != Some(false))
            && (offered.Some? ==>
                  && offered.value.omit.start <= offered.value.omit.end <= |resolved.request.items|
                  && resolved.request.items[offered.value.omit.start..offered.value.omit.end]
                     == KnownItems(origin, prepared, rounds, rules))
            && (offered.Some? && OfferedHistory(resolved, other, otherVersion).Some? ==>
                  target == other && version == otherVersion)
  {
    ChainLaw(origin, prepared, rounds, rules, resolved);
    if LastAnswer(origin, rounds).Some? {
      AnswerIsCommitted(origin, prepared, rounds, rules);
    }
  }

  // The codec's rebased request has more history than the request it came from.
  predicate Misdeclared(origin: Origin) {
    origin.Fresh? && origin.rebased.Some? && RepeatedCount(origin.request, origin.rebased.value) < 0
  }

  // The part of a request's history that its codec declares repeated.
  function DeclaredPrefix(origin: Origin): seq<Item>
    requires origin.Fresh? && origin.rebased.Some? && !Misdeclared(origin)
  {
    Inherited(origin)[..RepeatedCount(origin.request, origin.rebased.value)]
  }

  // No other spelling of the declared prefix is on file. Only a request that
  // repeats history no checkpoint was found for can be disputed.
  ghost predicate Undisputed(origin: Origin, workspace: string, representatives: Representatives) {
    origin.Fresh? && origin.rebased.Some? && !Misdeclared(origin) ==>
      OnFile(representatives, HistoryKey(workspace, origin.rebased.value.history), DeclaredPrefix(origin))
      == DeclaredPrefix(origin)
  }

  lemma LoadedEvidence(checkpoint: Checkpoint, store: MemoryStore, workspace: string, retained: seq<Item>)
    requires ExtendsExactly(checkpoint, store, workspace)
    requires RetainedHistory(checkpoint.request.items) + checkpoint.response.items <= retained
    ensures Minted(checkpoint.reuse, store) && ReuseRefusal(checkpoint.reuse, store, workspace, retained).None?
    ensures forall representatives ::
              ExactReuse(ReusedBy(checkpoint.reuse, store, workspace, retained, representatives), retained)
  {
    ResponseItemsAreHistory(checkpoint.response);
    var known := RetainedHistory(checkpoint.request.items) + checkpoint.response.items;
    assert Flatten(checkpoint.reuse.token.value.tail) == known && known == retained[..|known|];
  }

  // The evidence an exchange carries, at the moment its outcome is committed: it
  // is refused only when the codec misdeclared, and the commit is otherwise kept
  // verbatim exactly when the declared prefix is undisputed.
  ghost predicate EvidenceVerdict(
    origin: Origin, store: MemoryStore, workspace: string, representatives: Representatives, commit: Commit, preparedAt: Time)
    requires SplitRequestPrelude(commit.checkpoint.request.items).Some?
  {
    var retained := RetainedHistory(commit.checkpoint.request.items);
    && Minted(commit.reuse, store)
    && ReuseRefusal(commit.reuse, store, workspace, retained)
       == (if Misdeclared(origin) then Some(ReusePrefixInvalid) else None)
    && (!Misdeclared(origin) ==>
          var reused := ReusedBy(commit.reuse, store, workspace, retained, representatives);
          StoredAsCommitted(Settled(commit.checkpoint, preparedAt, reused), commit.checkpoint, preparedAt)
          <==> Undisputed(origin, workspace, representatives))
  }

  lemma EvidenceHolds(
    origin: Origin, store: MemoryStore, workspace: string, representatives: Representatives, commit: Commit, preparedAt: Time)
    requires origin.Loaded? ==> ExtendsExactly(origin.checkpoint, store, workspace)
    requires commit.reuse == EvidenceOf(origin) && Begins(origin, commit.checkpoint.request.items)
    requires SplitRequestPrelude(commit.checkpoint.request.items).Some?
    ensures EvidenceVerdict(origin, store, workspace, representatives, commit, preparedAt)
  {
    var retained := RetainedHistory(commit.checkpoint.request.items);
    if origin.Loaded? {
      LoadedEvidence(origin.checkpoint, store, workspace, retained);
      var reused := ReusedBy(commit.reuse, store, workspace, retained, representatives);
      VerbatimIffExact(commit.checkpoint, preparedAt, reused);
    } else if !Misdeclared(origin) {
      FreshEvidence(origin, store, workspace, representatives, commit, preparedAt);
    }
  }

  lemma FreshEvidence(
    origin: Origin, store: MemoryStore, workspace: string, representatives: Representatives, commit: Commit, preparedAt: Time)
    requires origin.Fresh? && !Misdeclared(origin) && SplitRequestPrelude(commit.checkpoint.request.items).Some?
    requires commit.reuse == EvidenceOf(origin) && Begins(origin, commit.checkpoint.request.items)
    ensures EvidenceVerdict(origin, store, workspace, representatives, commit, preparedAt)
  {
    var retained := RetainedHistory(commit.checkpoint.request.items);
    var reused := ReusedBy(commit.reuse, store, workspace, retained, representatives);
    VerbatimIffExact(commit.checkpoint, preparedAt, reused);
    if origin.rebased.Some? {
      var n := RepeatedCount(origin.request, origin.rebased.value);
      assert retained[..n] == Inherited(origin)[..n];
    }
  }

  // Committing a chain is a truthful act of the store's runs: the evidence it
  // carries is true as soon as the codec's declared prefix spells its fingerprint.
  lemma ChainIsTruthful(
    origin: Origin, prepared: Request, rounds: seq<Round>, rules: Rules, store: MemoryStore, act: Act, spells: Spelling)
    requires act.Accept? && act.commit.reuse == EvidenceOf(origin)
    requires WellFormedOrigin(origin) && WellFormedRounds(rounds)
    requires origin.Loaded? ==> ExtendsExactly(origin.checkpoint, store, act.workspace)
    requires RunChain(origin, prepared, rounds, rules).Ok?
    requires act.commit.checkpoint.request == RunChain(origin, prepared, rounds, rules).value.request
    requires origin.Fresh? && origin.rebased.Some? && !Misdeclared(origin) ==>
               spells(HistoryKey(act.workspace, origin.rebased.value.history), DeclaredPrefix(origin))
    ensures Truthful(store, act, spells)
  {
    ChainLaw(origin, prepared, rounds, rules, RunChain(origin, prepared, rounds, rules).value);
    var retained := RetainedHistory(act.commit.checkpoint.request.items);
    if origin.Loaded? {
      LoadedEvidence(origin.checkpoint, store, act.workspace, retained);
    } else {
      FreshIsTruthful(origin, store, act, retained, spells);
    }
  }

  lemma FreshIsTruthful(origin: Origin, store: MemoryStore, act: Act, retained: seq<Item>, spells: Spelling)
    requires act.Accept? && origin.Fresh? && act.commit.reuse == EvidenceOf(origin)
    requires retained == RetainedHistory(act.commit.checkpoint.request.items) && Inherited(origin) <= retained
    requires origin.rebased.Some? && !Misdeclared(origin) ==>
               spells(HistoryKey(act.workspace, origin.rebased.value.history), DeclaredPrefix(origin))
    ensures Truthful(store, act, spells)
  {
    if origin.rebased.Some? && !Misdeclared(origin) {
      var n := RepeatedCount(origin.request, origin.rebased.value);
      assert retained[..n] == DeclaredPrefix(origin);
    }
  }

  // What becomes of a commit that carries its origin's evidence.
  ghost predicate CommittedFrom(
    origin: Origin, workspace: string, answer: Checkpoint, preparedAt: Time, checkedAt: Time,
    representatives: Representatives, r: Result<RecordId, StoreError>, contents: Plain)
  {
    match r
    case Err(error) =>
      || EarlyRefusal(workspace, answer, preparedAt, checkedAt) == Some(error)
      || error == CheckpointExists
      || (Misdeclared(origin) && error == ReusePrefixInvalid)
    case Ok(key) =>
      && !Misdeclared(origin)
      && key == RecordId(TrimSpace(workspace), answer.response.ref.swobuId)
      && key in contents
      && CarriedOver(contents[key], answer, preparedAt)
      && (StoredAsCommitted(contents[key], answer, preparedAt)
          <==> Undisputed(origin, TrimSpace(workspace), representatives))
  }

  lemma VerdictDecides(
    origin: Origin, store: MemoryStore, workspace: string, commit: Commit, preparedAt: Time, checkedAt: Time,
    representatives: Representatives, live: Plain, r: Result<RecordId, StoreError>, contents: Plain, reused: Reused)
    requires SplitRequestPrelude(commit.checkpoint.request.items).Some?
    requires EvidenceVerdict(origin, store, TrimSpace(workspace), representatives, commit, preparedAt)
    requires var early := EarlyRefusal(workspace, commit.checkpoint, preparedAt, checkedAt);
             var late := LateRefusal(TrimSpace(workspace), commit, store, live);
             if early.Some? then r == Err(early.value)
             else if late.Some? then r == Err(late.value)
             else
               && r == Ok(RecordId(TrimSpace(workspace), commit.checkpoint.response.ref.swobuId))
               && Reuses(commit, store, TrimSpace(workspace), representatives, reused)
               && r.value in contents && contents[r.value] == Settled(commit.checkpoint, preparedAt, reused)
    ensures CommittedFrom(origin, workspace, commit.checkpoint, preparedAt, checkedAt, representatives, r, contents)
  {
  }

  method CommitFrom(
    store: MemoryStore, workspace: string, origin: Origin, answer: Checkpoint,
    preparedAt: Time, checkedAt: Time, now: Time)
    returns (r: Result<RecordId, StoreError>)
    requires store.Valid()
    requires origin.Loaded? ==> ExtendsExactly(origin.checkpoint, store, TrimSpace(workspace))
    requires WellFormedResponse(answer.response) && SplitRequestPrelude(answer.request.items).Some?
    requires Begins(origin, answer.request.items)
    modifies store
    ensures store.Valid()
    ensures CommittedFrom(origin, workspace, answer, preparedAt, checkedAt,
                          LiveRepresentatives(old(store.visibleHistory), old(store.records), now), r, store.Contents())
  {
    var commit := Commit(answer, EvidenceOf(origin));
    ghost var representatives := LiveRepresentatives(store.visibleHistory, store.records, now);
    ghost var live := Live(store.Contents(), now);
    EvidenceHolds(origin, store, TrimSpace(workspace), representatives, commit, preparedAt);
    ghost var held, reused;
    r, held, reused := store.Put(workspace, commit, preparedAt, checkedAt, now);
    VerdictDecides(origin, store, workspace, commit, preparedAt, checkedAt, representatives, live, r, store.Contents(), reused);
  }

  // Committing a chain's outcome at any later time, whatever became of the
  // loaded checkpoint meanwhile. Evidence is the reason for a refusal only when
  // the codec misdeclared it, and what is stored is the commit itself exactly
  // when no other spelling of a declared prefix is on file.
  method CommitChain(
    store: MemoryStore, workspace: string, origin: Origin, prepared: Request, rounds: seq<Round>, rules: Rules,
    answer: Checkpoint, preparedAt: Time, checkedAt: Time, now: Time)
    returns (r: Result<RecordId, StoreError>)
    requires store.Valid()
    requires origin.Loaded? ==> ExtendsExactly(origin.checkpoint, store, TrimSpace(workspace))
    requires WellFormedRounds(rounds) && WellFormedResponse(answer.response)
    requires RunChain(origin, prepared, rounds, rules).Ok?
    requires answer.request == RunChain(origin, prepared, rounds, rules).value.request
    modifies store
    ensures store.Valid()
    ensures CommittedFrom(origin, workspace, answer, preparedAt, checkedAt,
                          LiveRepresentatives(old(store.visibleHistory), old(store.records), now), r, store.Contents())
    ensures origin.Loaded? && r.Ok? ==> StoredAsCommitted(store.Contents()[r.value], answer, preparedAt)
  {
    ChainLaw(origin, prepared, rounds, rules, RunChain(origin, prepared, rounds, rules).value);
    r := CommitFrom(store, workspace, origin, answer, preparedAt, checkedAt, now);
  }
}
