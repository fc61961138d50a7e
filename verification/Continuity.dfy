// Continuity resolution (internal/continuity/resolve.go): from a client request
// and an optional checkpoint to one complete canonical request, plus the exact
// part of it that a provider already knows.
module Continuity {
  import opened Wrappers
  import opened Text
  import opened Canonical
  import opened CheckpointStore

  const MAX_UINT32: nat := 0xFFFF_FFFF

  // Half-open range of request items.
  datatype Range = Range(start: nat, end: nat)

  // The response whose native handle represents exactly the omitted items.
  datatype PreviousHistory = PreviousHistory(response: ResponseRef, omit: Range)

  datatype Resolved = Resolved(request: Request, previous: Option<PreviousHistory>)

  datatype Draft = Draft(current: Request, checkpoint: Option<Checkpoint>)

  datatype Problem =
    | BeginNamesPrevious
    | ToolPolicyAmbiguous
    | RequestInvalid
    | PreviousIdEmpty
    | PreviousIdUnknown
    | ResponseUncommitted
    | ResultNotPending
    | ResultForSearchCall
    | ResultIsSearch
    | ResultDuplicate
    | LayoutInvalid
    | PreparedNamesPrevious
    | HistoryRewritten
    | RequestStateChanged
    | CoordinateRange
    | RangeInvalid

  type Outcome = Result<Resolved, Problem>

  // The two judgements of the canonical package that continuity only consults:
  // the tool policy a request has in effect, and validity beyond item layout.
  datatype Rules = Rules(policy: Request -> Option<string>, residual: Request -> bool)

  predicate Materialized(request: Request, rules: Rules) {
    SplitRequestPrelude(request.items).Some? && rules.residual(request)
  }

  // ------------------------------------------------------------ construction

  function NativePrevious(ref: ResponseRef, omit: Range): Option<PreviousHistory> {
    if ref.responses.None? && ref.interactions.None? then None else Some(PreviousHistory(ref, omit))
  }

  predicate ValidFor(previous: PreviousHistory, request: Request) {
    && (previous.response.responses.Some? || previous.response.interactions.Some?)
    && previous.omit.start <= previous.omit.end <= |request.items|
    && SplitRequestPrelude(request.items).Some?
    && |SplitRequestPrelude(request.items).value.prelude.items| % (MAX_UINT32 + 1) == previous.omit.start
  }

  function NewResolved(request: Request, previous: Option<PreviousHistory>, rules: Rules): (r: Outcome)
    ensures r.Ok? ==> r.value == Resolved(request, previous) && request.previous.None? && Materialized(request, rules)
  {
    if request.previous.Some? then Err(PreparedNamesPrevious)
    else if !Materialized(request, rules) then Err(RequestInvalid)
    else if previous.Some? && !ValidFor(previous.value, request) then Err(RangeInvalid)
    else Ok(Resolved(request, previous))
  }

  // ------------------------------------------------------------------- begin

  function PrepareBegin(request: Request, rules: Rules): Result<Draft, Problem> {
    if request.previous.Some? then Err(BeginNamesPrevious)
    else if rules.policy(request).None? then Err(ToolPolicyAmbiguous)
    else
      var model := if request.model.Some? then request.model.value else "";
      var batch := if request.controls.toolCallBatch.Some? then request.controls.toolCallBatch.value else "";
      var format := if request.controls.outputFormat.Some? then request.controls.outputFormat.value else "";
      var current := request.(
        model := Some(model),
        controls := request.controls.(
          toolPolicy := rules.policy(request), toolCallBatch := Some(batch), outputFormat := Some(format)));
      if !Materialized(current, rules) then Err(RequestInvalid) else Ok(Draft(current, None))
  }

  // ------------------------------------------------------------------ resume

  // The calls a response leaves open, with the kind each was last issued as.
  function Pending(items: seq<Item>): (pending: map<string, ToolKind>)
    ensures forall id :: id in pending <==> exists i :: 0 <= i < |items| && items[i].ToolCall? && items[i].callId == id
  {
    if items == [] then map[]
    else
      var last := items[|items| - 1];
      var rest := Pending(items[..|items| - 1]);
      if last.ToolCall? then rest[last.callId := last.kind] else rest
  }

  function ResultProblem(item: Item, pending: map<string, ToolKind>, matched: set<string>): Option<Problem> {
    if !item.ToolResult? then None
    else if item.callId !in pending then Some(ResultNotPending)
    else if pending[item.callId] == WebSearchTool then Some(ResultForSearchCall)
    else if item.webSearch then Some(ResultIsSearch)
    else if item.callId in matched then Some(ResultDuplicate)
    else None
  }

  function ResultIds(items: seq<Item>): set<string> {
    set i | 0 <= i < |items| && items[i].ToolResult? :: items[i].callId
  }

  // Every result answers its own still-open caller-resolved call.
  predicate Correlated(items: seq<Item>, pending: map<string, ToolKind>) {
    && (forall i :: 0 <= i < |items| && items[i].ToolResult? ==>
          items[i].callId in pending && pending[items[i].callId] != WebSearchTool && !items[i].webSearch)
    && (forall i, j :: 0 <= i < j < |items| && items[i].ToolResult? && items[j].ToolResult? ==>
          items[i].callId != items[j].callId)
  }

  // The first result that breaks correlation decides the refusal.
  function FirstProblem(items: seq<Item>, pending: map<string, ToolKind>): (r: Option<Problem>)
    ensures r.None? <==> Correlated(items, pending)
  {
    if items == [] then None
    else
      var front := items[..|items| - 1];
      var earlier := FirstProblem(front, pending);
      if earlier.Some? then
        assert Correlated(items, pending) ==> Correlated(front, pending);
        earlier
      else
        var last := items[|items| - 1];
        assert forall i :: 0 <= i < |front| ==> front[i] == items[i];
        assert last.ToolResult? && last.callId in ResultIds(front) ==> !Correlated(items, pending);
        ResultProblem(last, pending, ResultIds(front))
  }

  // An unfinished turn keeps whichever prelude bands the new request omits.
  function RepeatContext(previous: Request, current: Request): Result<Request, Problem> {
    var before := SplitRequestPrelude(previous.items);
    var now := SplitRequestPrelude(current.items);
    if before.None? || now.None? then Err(LayoutInvalid)
    else
      var earlier, latest := before.value.prelude, now.value.prelude;
      var directives := if latest.directives == [] then earlier.directives else latest.directives;
      var tools := if latest.declarations == [] then earlier.declarations else latest.declarations;
      var toolsFirst := if latest.directives != [] && latest.declarations != [] then latest.toolsFirst else earlier.toolsFirst;
      var prelude := if toolsFirst then tools + directives else directives + tools;
      Ok(WithItems(current, prelude + now.value.history))
  }

  function TurnContinuation(checkpoint: Checkpoint, current: Request): Result<Request, Problem> {
    var problem := FirstProblem(current.items, Pending(checkpoint.response.items));
    if problem.Some? then Err(problem.value)
    else if ResultIds(current.items) == {} then Ok(current)
    else RepeatContext(checkpoint.request, current)
  }

  // The loops of the source: one pass collects what is pending, one pass
  // checks the results in order.
  method ResolveTurnContinuation(checkpoint: Checkpoint, current: Request) returns (r: Result<Request, Problem>)
    ensures r == TurnContinuation(checkpoint, current)
  {
    var answered := checkpoint.response.items;
    var pending: map<string, ToolKind> := map[];
    for i := 0 to |answered|
      invariant pending == Pending(answered[..i])
    {
      assert answered[..i + 1][..i] == answered[..i];
      if answered[i].ToolCall? {
        pending := pending[answered[i].callId := answered[i].kind];
      }
    }
    assert answered[..|answered|] == answered;
    var items := current.items;
    var matched: set<string> := {};
    for i := 0 to |items|
      invariant matched == ResultIds(items[..i])
      invariant FirstProblem(items[..i], pending).None?
    {
      assert items[..i + 1][..i] == items[..i];
      var problem := ResultProblem(items[i], pending, matched);
      if problem.Some? {
        FirstProblemStays(items, pending, i + 1);
        return Err(problem.value);
      }
      if items[i].ToolResult? {
        matched := matched + {items[i].callId};
      }
      ResultIdsStep(items, i);
    }
    assert items[..|items|] == items;
    if matched == {} {
      return Ok(current);
    }
    return RepeatContext(checkpoint.request, current);
  }

  lemma ResultIdsStep(items: seq<Item>, i: nat)
    requires i < |items|
    ensures ResultIds(items[..i + 1]) ==
            if items[i].ToolResult? then ResultIds(items[..i]) + {items[i].callId} else ResultIds(items[..i])
  {
    var long, short := items[..i + 1], items[..i];
    assert forall j :: 0 <= j < i ==> long[j] == short[j];
    if items[i].ToolResult? {
      assert long[i].callId in ResultIds(long);
    }
    forall id | id in ResultIds(short)
      ensures id in ResultIds(long)
    {
      var j :| 0 <= j < |short| && short[j].ToolResult? && short[j].callId == id;
      assert long[j].ToolResult? && long[j].callId == id;
    }
  }

  lemma {:induction false} FirstProblemStays(items: seq<Item>, pending: map<string, ToolKind>, i: nat)
    requires i <= |items| && FirstProblem(items[..i], pending).Some?
    ensures FirstProblem(items, pending) == FirstProblem(items[..i], pending)
  {
    if i < |items| {
      var front := items[..|items| - 1];
      assert front[..i] == items[..i];
      FirstProblemStays(front, pending, i);
    } else {
      assert items[..i] == items;
    }
  }

  function PrepareResume(request: Request, checkpoint: Checkpoint): Result<Draft, Problem> {
    if request.previous.Some? && Blank(request.previous.value.swobuId) then Err(PreviousIdEmpty)
    else if !CommittedRef(checkpoint.response.ref) then Err(ResponseUncommitted)
    else if request.previous.Some? && request.previous.value.swobuId != checkpoint.response.ref.swobuId then
      Err(PreviousIdUnknown)
    else
      match TurnContinuation(checkpoint, request.(previous := None))
      case Err(problem) => Err(problem)
      case Ok(effective) => Ok(Draft(effective, Some(checkpoint)))
  }

  datatype Composed = Composed(request: Request, omit: Range)

  // Prelude, then the checkpoint's retained history and response, then the
  // current history.
  function Compose(previous: Checkpoint, current: Request): Result<Composed, Problem> {
    var split := SplitRequestPrelude(current.items);
    if split.None? then Err(LayoutInvalid)
    else
      var prelude := split.value.prelude.items;
      var known := RetainedHistory(previous.request.items) + previous.response.items;
      if |prelude| > MAX_UINT32 || |prelude| + |known| > MAX_UINT32 then Err(CoordinateRange)
      else
        var model :=
          if current.model.Some? then current.model.value
          else if previous.request.model.Some? then previous.request.model.value else "";
        Ok(Composed(
             Request(Some(model), prelude + known + split.value.history, None, current.controls),
             Range(|prelude|, |prelude| + |known|)))
  }

  // Freezes the draft once preparation is shown to have touched the prelude
  // only.
  function Finalize(draft: Draft, prepared: Request, rules: Rules): Outcome {
    var original := SplitRequestPrelude(draft.current.items);
    var split := SplitRequestPrelude(prepared.items);
    if prepared.previous.Some? then Err(PreparedNamesPrevious)
    else if original.None? || split.None? then Err(LayoutInvalid)
    else if original.value.history != split.value.history then Err(HistoryRewritten)
    else if WithItems(draft.current, prepared.items) != prepared then Err(RequestStateChanged)
    else if draft.checkpoint.None? then NewResolved(prepared, None, rules)
    else
      match Compose(draft.checkpoint.value, prepared)
      case Err(problem) => Err(problem)
      case Ok(composed) =>
        NewResolved(composed.request, NativePrevious(draft.checkpoint.value.response.ref, composed.omit), rules)
  }

  function Begin(request: Request, rules: Rules): Outcome {
    match PrepareBegin(request, rules)
    case Err(problem) => Err(problem)
    case Ok(draft) => Finalize(draft, draft.current, rules)
  }

  function Resume(request: Request, checkpoint: Checkpoint, rules: Rules): Outcome {
    match PrepareResume(request, checkpoint)
    case Err(problem) => Err(problem)
    case Ok(draft) => Finalize(draft, draft.current, rules)
  }

  // The in-process continuation after local tool results.
  function ContinueAfterLocalResult(resolved: Resolved, response: Response, results: seq<Item>, rules: Rules): Outcome {
    var known := resolved.request.items + response.items;
    var request := WithItems(resolved.request, known + results);
    var split := SplitRequestPrelude(request.items);
    if !CommittedRef(response.ref) then Err(ResponseUncommitted)
    else if |known| > MAX_UINT32 then Err(CoordinateRange)
    else if split.None? then Err(LayoutInvalid)
    else if |split.value.prelude.items| > MAX_UINT32 then Err(CoordinateRange)
    else
      NewResolved(request, NativePrevious(response.ref, Range(|split.value.prelude.items|, |known|)), rules)
  }

  // The relation offered to one exact target generation, if any.
  function OfferedHistory(resolved: Resolved, targetId: string, targetVersion: nat): Option<PreviousHistory> {
    if resolved.previous.None?
       || resolved.request.controls.store == Some(false)
       || !AppliesTo(resolved.previous.value.response, targetId, targetVersion)
    then None else resolved.previous
  }

  predicate AppliesTo(ref: ResponseRef, targetId: string, targetVersion: nat) {
    || (ref.responses.Some? && HandleFor(ref.responses.value, targetId, targetVersion))
    || (ref.interactions.Some? && HandleFor(ref.interactions.value, targetId, targetVersion))
  }

  predicate HandleFor(handle: Handle, targetId: string, targetVersion: nat) {
    BoundHandle(handle) && handle.targetId == targetId && handle.targetVersion == targetVersion
  }
}
