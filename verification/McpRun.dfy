// The request-scoped MCP runtime (internal/mcp/run.go): which calls of a
// completed round it owns, and its side-effect budget.
module McpRun {
  import opened Wrappers
  import opened Exchange

  class Run {
    const bindings: set<string>
    var roundCount: nat
    var callCount: nat

    constructor (bindings: set<string>)
      ensures this.bindings == bindings && Budget() == Spent(0, 0)
    {
      this.bindings := bindings;
      roundCount, callCount := 0, 0;
    }

    function Budget(): Spent
      reads this
    {
      Spent(roundCount, callCount)
    }

    // Classifies without touching the budget.
    method Calls(calls: seq<Call>) returns (r: Option<seq<Call>>)
      ensures r == Classify(Some(bindings), calls)
    {
      var remote: seq<Call> := [];
      var callerOwned := 0;
      for i := 0 to |calls|
        invariant remote == RemoteCalls(bindings, calls[..i])
        invariant callerOwned > 0 <==> exists j :: 0 <= j < i && CallerOwned(bindings, calls[j])
        invariant callerOwned >= 0
      {
        assert calls[..i + 1][..i] == calls[..i];
        if calls[i].tool in bindings {
          remote := remote + [calls[i]];
        } else if calls[i].callerExecutes {
          assert CallerOwned(bindings, calls[i]);
          callerOwned := callerOwned + 1;
        }
      }
      assert calls[..|calls|] == calls;
      if |remote| > 0 && callerOwned > 0 {
        return None;
      }
      return Some(remote);
    }

    // Reserves one classified batch, or leaves the budget as it was.
    method BeginBatch(calls: seq<Call>) returns (ok: bool)
      modifies this
      ensures ok == Reserve(old(Budget()), bindings, calls).Some?
      ensures Budget() == if ok then Reserve(old(Budget()), bindings, calls).value else old(Budget())
    {
      if |calls| == 0 {
        return false;
      }
      for i := 0 to |calls|
        invariant forall j :: 0 <= j < i ==> calls[j].tool in bindings
        invariant Budget() == old(Budget())
      {
        if calls[i].tool !in bindings {
          return false;
        }
      }
      if roundCount >= MAX_REMOTE_ROUNDS || callCount + |calls| > MAX_REMOTE_CALLS {
        return false;
      }
      roundCount := roundCount + 1;
      callCount := callCount + |calls|;
      return true;
    }
  }

  // Positions in increasing order.
  predicate Ascending(at: seq<nat>) {
    forall i, j :: 0 <= i < j < |at| ==> at[i] < at[j]
  }

  // The calls of a round that the runtime owns: exactly the bound ones, each once
  // and in the round's order.
  lemma {:induction false} RemoteCallsAreBound(bindings: set<string>, calls: seq<Call>) returns (at: seq<nat>)
    ensures Ascending(at) && |at| == |RemoteCalls(bindings, calls)|
    ensures forall k :: 0 <= k < |at| ==> at[k] < |calls| && RemoteCalls(bindings, calls)[k] == calls[at[k]]
    ensures forall i: nat :: i < |calls| ==> (calls[i].tool in bindings <==> i in at)
  {
    at := [];
    if calls != [] {
      var front, last := calls[..|calls| - 1], calls[|calls| - 1];
      at := RemoteCallsAreBound(bindings, front);
      assert forall i :: 0 <= i < |front| ==> front[i] == calls[i];
      if last.tool in bindings {
        at := at + [|calls| - 1];
      }
    }
  }

  // Reserving any sequence of batches never exceeds either limit, and what is
  // spent is exactly what was reserved.
  ghost function SpendAll(spent: Spent, bindings: set<string>, batches: seq<seq<Call>>): Spent {
    if batches == [] then spent
    else
      var before := SpendAll(spent, bindings, batches[..|batches| - 1]);
      var reserved := Reserve(before, bindings, batches[|batches| - 1]);
      if reserved.Some? then reserved.value else before
  }

  lemma {:induction false} BudgetHolds(bindings: set<string>, batches: seq<seq<Call>>)
    ensures var spent := SpendAll(Spent(0, 0), bindings, batches);
            && spent.rounds <= MAX_REMOTE_ROUNDS && spent.calls <= MAX_REMOTE_CALLS
            && spent.rounds <= spent.calls
  {
    if batches != [] {
      BudgetHolds(bindings, batches[..|batches| - 1]);
    }
  }
}
