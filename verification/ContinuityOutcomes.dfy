// When begin, resume and finalize succeed and what they then hold, stated on the
// client's request and the checkpoint (internal/continuity/resolve.go).
module ContinuityOutcomes {
  import opened Wrappers
  import opened Text
  import opened Canonical
  import opened CheckpointStore
  import opened Continuity

  // ---------------------------------------------------- results and their calls

  predicate IsCall(item: Item, id: string) {
    item.ToolCall? && item.callId == id
  }

  predicate IsResult(item: Item, id: string) {
    item.ToolResult? && item.callId == id
  }

  // The call was last issued as this kind.
  ghost predicate LastIssued(items: seq<Item>, id: string, kind: ToolKind) {
    exists i :: 0 <= i < |items| && IsCall(items[i], id) && items[i].kind == kind
             && forall j :: i < j < |items| ==> !IsCall(items[j], id)
  }

  lemma {:induction false} PendingIsLastIssued(items: seq<Item>, id: string, kind: ToolKind)
    ensures id in Pending(items) && Pending(items)[id] == kind <==> LastIssued(items, id, kind)
    ensures id !in Pending(items) <==> forall i :: 0 <= i < |items| ==> !IsCall(items[i], id)
  {
    if items != [] {
      var front, last := items[..|items| - 1], items[|items| - 1];
      PendingIsLastIssued(front, id, kind);
      LastIssuedGrows(front, last, id, kind);
      assert items == front + [last];
    }
  }

  lemma LastIssuedGrows(front: seq<Item>, last: Item, id: string, kind: ToolKind)
    ensures LastIssued(front + [last], id, kind)
       <==> if IsCall(last, id) then last.kind == kind else LastIssued(front, id, kind)
  {
    var items := front + [last];
    assert items[|front|] == last && forall j :: 0 <= j < |front| ==> items[j] == front[j];
    if LastIssued(front, id, kind) && !IsCall(last, id) {
      var i :| 0 <= i < |front| && IsCall(front[i], id) && front[i].kind == kind
            && forall j :: i < j < |front| ==> !IsCall(front[j], id);
      assert IsCall(items[i], id) && forall j :: i < j < |items| ==> !IsCall(items[j], id);
    }
    if LastIssued(items, id, kind) && !IsCall(last, id) {
      var i :| 0 <= i < |items| && IsCall(items[i], id) && items[i].kind == kind
            && forall j :: i < j < |items| ==> !IsCall(items[j], id);
      assert IsCall(front[i], id) && forall j :: i < j < |front| ==> !IsCall(front[j], id);
    }
  }

  // Why the item at i cannot be taken as a result of the response, if it cannot:
  // nobody called, the call was a search, the result is one, or an earlier item
  // answered already.
  ghost predicate Refuses(answered: seq<Item>, items: seq<Item>, i: nat, problem: Problem)
    requires i < |items|
  {
    && items[i].ToolResult?
    && match problem
       case ResultNotPending => forall k :: 0 <= k < |answered| ==> !IsCall(answered[k], items[i].callId)
       case ResultForSearchCall => LastIssued(answered, items[i].callId, WebSearchTool)
       case ResultIsSearch => AnswersCall(answered, items[i].callId) && items[i].webSearch
       case ResultDuplicate =>
         && AnswersCall(answered, items[i].callId) && !items[i].webSearch
         && exists j :: 0 <= j < i && IsResult(items[j], items[i].callId)
       case _ => false
  }

  // The call is one the client resolves.
  ghost predicate AnswersCall(answered: seq<Item>, id: string) {
    exists kind :: LastIssued(answered, id, kind) && kind != WebSearchTool
  }

  ghost predicate Taken(answered: seq<Item>, items: seq<Item>, i: nat)
    requires i < |items|
  {
    items[i].ToolResult? ==>
      && AnswersCall(answered, items[i].callId) && !items[i].webSearch
      && forall j :: 0 <= j < i ==> !IsResult(items[j], items[i].callId)
  }

  lemma ResultIdsAre(items: seq<Item>, id: string)
    ensures id in ResultIds(items) <==> exists j :: 0 <= j < |items| && IsResult(items[j], id)
  {
    if j :| 0 <= j < |items| && IsResult(items[j], id) {
      assert items[j].ToolResult?;
    }
  }

  lemma ProblemOf(answered: seq<Item>, items: seq<Item>, i: nat)
    requires i < |items|
    ensures var problem := ResultProblem(items[i], Pending(answered), ResultIds(items[..i]));
            if problem.None? then Taken(answered, items, i) else Refuses(answered, items, i, problem.value)
  {
    var id := if items[i].ToolResult? then items[i].callId else "";
    ResultIdsAre(items[..i], id);
    assert forall j :: 0 <= j < i ==> items[..i][j] == items[j];
    PendingIsLastIssued(answered, id, WebSearchTool);
    if id in Pending(answered) {
      PendingIsLastIssued(answered, id, Pending(answered)[id]);
    }
  }

  // The first refused result decides the refusal.
  lemma {:induction false} FirstProblemIs(answered: seq<Item>, items: seq<Item>, n: nat)
    requires n <= |items|
    ensures var problem := FirstProblem(items[..n], Pending(answered));
            if problem.None? then forall i :: 0 <= i < n ==> Taken(answered, items, i)
            else exists i :: 0 <= i < n && Refuses(answered, items, i, problem.value)
                          && forall j :: 0 <= j < i ==> Taken(answered, items, j)
  {
    if n > 0 {
      assert items[..n][..n - 1] == items[..n - 1];
      FirstProblemIs(answered, items, n - 1);
      ProblemOf(answered, items, n - 1);
    }
  }

  // A continuation is refused by the first result that cannot be taken, with its
  // reason; with none of those the request stays as it is when it brings no
  // result, and otherwise takes over the unfinished turn's context.
  lemma ContinuationOutcome(checkpoint: Checkpoint, current: Request, r: Result<Request, Problem>)
    requires r == TurnContinuation(checkpoint, current)
    ensures var answered, items := checkpoint.response.items, current.items;
            || (exists i, problem :: 0 <= i < |items| && Refuses(answered, items, i, problem)
                  && (forall j :: 0 <= j < i ==> Taken(answered, items, j)) && r == Err(problem))
            || ((forall i :: 0 <= i < |items| ==> Taken(answered, items, i))
                  && r == if forall i :: 0 <= i < |items| ==> !items[i].ToolResult? then Ok(current)
                          else RepeatContext(checkpoint.request, current))
  {
    var items := current.items;
    assert items[..|items|] == items;
    FirstProblemIs(checkpoint.response.items, items, |items|);
    if i :| 0 <= i < |items| && items[i].ToolResult? {
      assert items[i].callId in ResultIds(items);
    }
  }

  // ------------------------------------------------------------------- finalize

  // Preparation changed nothing but the prelude.
  predicate PreludeOnly(before: Request, after: Request) {
    && after.previous.None?
    && after == before.(items := after.items)
    && SplitRequestPrelude(before.items).Some? && SplitRequestPrelude(after.items).Some?
    && SplitRequestPrelude(before.items).value.history == SplitRequestPrelude(after.items).value.history
  }

  function Known(checkpoint: Checkpoint): seq<Item> {
    RetainedHistory(checkpoint.request.items) + checkpoint.response.items
  }

  // The prepared request with the checkpoint's history and answer between its
  // prelude and its own history, and the model it or the checkpoint states.
  function Continued(checkpoint: Checkpoint, prepared: Request): Request
    requires SplitRequestPrelude(prepared.items).Some?
  {
    var split := SplitRequestPrelude(prepared.items).value;
    Request(Some(match (prepared.model, checkpoint.request.model)
                 case (Some(model), _) => model
                 case (None, Some(model)) => model
                 case (None, None) => ""),
            split.prelude.items + Known(checkpoint) + split.history, None, prepared.controls)
  }

  lemma FreshOutcome(draft: Draft, prepared: Request, rules: Rules, r: Outcome)
    requires draft.checkpoint.None? && r == Finalize(draft, prepared, rules)
    ensures r.Ok? <==> PreludeOnly(draft.current, prepared) && rules.residual(prepared)
    ensures r.Ok? ==> r.value == Resolved(prepared, None)
  {
  }

  lemma ContinuedSplits(checkpoint: Checkpoint, prepared: Request)
    requires SplitRequestPrelude(prepared.items).Some? && NoneScoped(checkpoint.response.items)
    ensures var split := SplitRequestPrelude(prepared.items).value;
            SplitRequestPrelude(Continued(checkpoint, prepared).items)
            == Some(Split(split.prelude, Known(checkpoint) + split.history))
  {
    var split := SplitRequestPrelude(prepared.items).value;
    var prelude := split.prelude.items;
    SplitAtSeam(prelude, split.history);
    assert prelude + Known(checkpoint) + split.history == prelude + (Known(checkpoint) + split.history);
    SplitAtSeam(prelude, Known(checkpoint) + split.history);
    assert prelude == prepared.items[..LeadCount(prepared.items)];
  }

  // With a checkpoint: accepted exactly when preparation left everything but the
  // prelude, the coordinates fit, and the joined request is valid; it then offers
  // the provider-held part exactly when the response left a native handle.
  lemma LoadedOutcome(draft: Draft, prepared: Request, rules: Rules, checkpoint: Checkpoint, r: Outcome)
    requires draft.checkpoint == Some(checkpoint) && NoneScoped(checkpoint.response.items)
    requires r == Finalize(draft, prepared, rules)
    ensures r.Ok? <==>
              && PreludeOnly(draft.current, prepared)
              && |SplitRequestPrelude(prepared.items).value.prelude.items| + |Known(checkpoint)| <= 0xFFFF_FFFF
              && rules.residual(Continued(checkpoint, prepared))
    ensures r.Ok? ==>
              && r.value.request == Continued(checkpoint, prepared)
              && Offers(r.value, checkpoint.response.ref,
                        |SplitRequestPrelude(prepared.items).value.prelude.items|, |Known(checkpoint)|)
  {
    FinalizeLoads(draft, prepared, rules, checkpoint);
    if PreludeOnly(draft.current, prepared) {
      ContinuedSplits(checkpoint, prepared);
      ContinuedComposes(checkpoint, prepared);
      var start := |SplitRequestPrelude(prepared.items).value.prelude.items|;
      if start + |Known(checkpoint)| <= MAX_UINT32 {
        JoinedOutcome(Continued(checkpoint, prepared), checkpoint.response.ref, start, |Known(checkpoint)|, rules);
      }
    }
  }

  // A relation to provider-held history is admitted exactly when a provider left a
  // handle and the omitted items lie in the request, right after its prelude.
  lemma RelationAdmittedExactlyWhen(request: Request, previous: PreviousHistory, rules: Rules)
    requires request.previous.None? && SplitRequestPrelude(request.items).Some? && rules.residual(request)
    requires |SplitRequestPrelude(request.items).value.prelude.items| <= 0xFFFF_FFFF
    ensures NewResolved(request, Some(previous), rules).Ok? <==>
              && !(previous.response.responses == None && previous.response.interactions == None)
              && previous.omit.start == |SplitRequestPrelude(request.items).value.prelude.items|
              && previous.omit.start <= previous.omit.end <= |request.items|
  {
    var lead := |SplitRequestPrelude(request.items).value.prelude.items|;
    assert lead % (MAX_UINT32 + 1) == lead;
  }

  lemma FinalizeLoads(draft: Draft, prepared: Request, rules: Rules, checkpoint: Checkpoint)
    requires draft.checkpoint == Some(checkpoint)
    ensures if PreludeOnly(draft.current, prepared) then
              Finalize(draft, prepared, rules) ==
              match Compose(checkpoint, prepared)
              case Err(problem) => Err(problem)
              case Ok(composed) =>
                NewResolved(composed.request, NativePrevious(checkpoint.response.ref, composed.omit), rules)
            else Finalize(draft, prepared, rules).Err?
  {
  }

  lemma JoinedOutcome(request: Request, ref: ResponseRef, start: nat, count: nat, rules: Rules)
    requires request.previous.None? && SplitRequestPrelude(request.items).Some?
    requires |SplitRequestPrelude(request.items).value.prelude.items| == start
    requires start + count <= |request.items| && start <= MAX_UINT32
    ensures var r := NewResolved(request, NativePrevious(ref, Range(start, start + count)), rules);
            && (r.Ok? <==> rules.residual(request))
            && (r.Ok? ==> r.value.request == request && Offers(r.value, ref, start, count))
  {
  }

  lemma ContinuedComposes(checkpoint: Checkpoint, prepared: Request)
    requires SplitRequestPrelude(prepared.items).Some?
    ensures var start := |SplitRequestPrelude(prepared.items).value.prelude.items|;
            var end := start + |Known(checkpoint)|;
            Compose(checkpoint, prepared) ==
            if end > MAX_UINT32 then Err(CoordinateRange)
            else Ok(Composed(Continued(checkpoint, prepared), Range(start, end)))
  {
  }

  // The provider holds the items from start on, this many, under a native handle.
  predicate Offers(resolved: Resolved, ref: ResponseRef, start: nat, count: nat) {
    resolved.previous ==
      if ref.responses.Some? || ref.interactions.Some? then Some(PreviousHistory(ref, Range(start, start + count)))
      else None
  }

  // --------------------------------------------------------------------- begin

  // A beginning request with everything it leaves open settled.
  function Settled(request: Request, policy: string): Request {
    request.(
      model := if request.model.None? then Some("") else request.model,
      controls := request.controls.(
        toolPolicy := Some(policy),
        toolCallBatch := if request.controls.toolCallBatch.None? then Some("") else request.controls.toolCallBatch,
        outputFormat := if request.controls.outputFormat.None? then Some("") else request.controls.outputFormat))
  }

  // A conversation begins exactly with a request that names no predecessor, has
  // one tool policy, and is laid out and valid once its open choices are settled;
  // nothing else about it changes, and no history is offered.
  lemma BeginOutcome(request: Request, rules: Rules, r: Outcome)
    requires r == Begin(request, rules)
    ensures r.Ok? <==>
              && request.previous.None? && SplitRequestPrelude(request.items).Some?
              && rules.policy(request).Some? && rules.residual(Settled(request, rules.policy(request).value))
    ensures r.Ok? ==> r.value == Resolved(Settled(request, rules.policy(request).value), None)
    ensures request.previous.Some? ==> r == Err(BeginNamesPrevious)
    ensures request.previous.None? && rules.policy(request).None? ==> r == Err(ToolPolicyAmbiguous)
  {
  }

  // -------------------------------------------------------------------- resume

  // The request names the checkpoint's response, or nothing.
  predicate Names(request: Request, checkpoint: Checkpoint) {
    request.previous.Some? ==>
      !AllSpace(request.previous.value.swobuId) && request.previous.value.swobuId == checkpoint.response.ref.swobuId
  }

  // A resumption is drafted exactly when the request names the checkpoint or
  // nothing, the checkpoint's response is committed, and its results continue the
  // turn; the draft is that continuation over that checkpoint.
  lemma ResumeDraftedExactlyWhen(request: Request, checkpoint: Checkpoint, r: Result<Draft, Problem>)
    requires r == PrepareResume(request, checkpoint)
    ensures r.Ok? <==>
              && Names(request, checkpoint) && CommittedRef(checkpoint.response.ref)
              && TurnContinuation(checkpoint, request.(previous := None)).Ok?
    ensures r.Ok? ==>
              && r.value.checkpoint == Some(checkpoint)
              && Ok(r.value.current) == TurnContinuation(checkpoint, request.(previous := None))
  {
    if request.previous.Some? {
      BlankIsAllSpace(request.previous.value.swobuId);
    }
  }

  // Resuming without further preparation.
  lemma ResumeOutcome(request: Request, checkpoint: Checkpoint, rules: Rules, draft: Draft, r: Outcome)
    requires NoneScoped(checkpoint.response.items) && PrepareResume(request, checkpoint) == Ok(draft)
    requires r == Resume(request, checkpoint, rules)
    ensures r.Ok? <==>
              && draft.current.previous.None? && SplitRequestPrelude(draft.current.items).Some?
              && |SplitRequestPrelude(draft.current.items).value.prelude.items| + |Known(checkpoint)| <= 0xFFFF_FFFF
              && rules.residual(Continued(checkpoint, draft.current))
    ensures r.Ok? ==>
              && r.value.request == Continued(checkpoint, draft.current)
              && Offers(r.value, checkpoint.response.ref,
                        |SplitRequestPrelude(draft.current.items).value.prelude.items|, |Known(checkpoint)|)
  {
    ResumeDraftedExactlyWhen(request, checkpoint, Ok(draft));
    LoadedOutcome(draft, draft.current, rules, checkpoint, r);
  }
}
