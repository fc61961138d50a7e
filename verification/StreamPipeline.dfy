// The three streams and the committer as the objects they are: each pull updates
// fields in place, and does to the pipeline's value exactly what the functions of
// Streams say, so that every law about draining holds of these objects.
module StreamPipeline {
  import opened Wrappers
  import opened Streams

  class TerminalResponseStream {
    var upstream: seq<Pull>
    var started: bool
    var terminated: bool
    var pending: seq<Event>
    var last: Option<Event>
    var failure: Option<Error>

    function State(): Terminal
      reads this
    {
      Terminal(upstream, started, terminated, pending, last, failure)
    }

    constructor (upstream: seq<Pull>)
      ensures State() == Terminal(upstream, false, false, [], None, None)
    {
      this.upstream := upstream;
      started, terminated := false, false;
      pending, last, failure := [], None, None;
    }

    method Pull() returns (pull: Pull)
      modifies this`upstream
      ensures Pulled(pull, upstream) == Upstream(old(upstream))
    {
      if upstream == [] {
        return Fault(EndOfStream);
      }
      pull := upstream[0];
      upstream := upstream[1..];
    }

    method Next() returns (pull: Pull)
      modifies this
      ensures Pulled(pull, State()) == TerminalNext(old(State()))
      decreases if terminated then 0 else 1
    {
      if pending != [] {
        pull := Got(pending[0]);
        pending := pending[1..];
        return;
      }
      if terminated {
        return Fault(EndOfStream);
      }
      pull := Pull();
      if pull.Fault? {
        if started && last.Some? && pull.error != Cancelled {
          failure := Some(pull.error);
          var code := FailureCode(pull.error);
          pending := FailureEvents(last.value, code.0, code.1);
          terminated := true;
          pull := Next();
        }
        return;
      }
      var event := pull.event;
      if StartsResponse(event) {
        started := true;
        event := event.(nativeId := "");
      }
      last := Some(event);
      if TerminalStatus(event).Some? {
        terminated := true;
      }
      pull := Got(event);
    }
  }

  class CheckpointCaptureStream {
    const upstream: TerminalResponseStream
    const binding: Binding
    var applied: seq<Event>
    var result: Snapshot

    function State(): Capture
      reads this
    {
      Capture(binding, applied, result)
    }

    function Whole(): Source
      reads this, upstream
    {
      Source(upstream.State(), State())
    }

    constructor (upstream: TerminalResponseStream, binding: Binding)
      ensures this.upstream == upstream && State() == Capture(binding, [], Pending)
    {
      this.upstream := upstream;
      this.binding := binding;
      applied, result := [], Pending;
    }

    method Fail(error: Error)
      modifies this`result
      ensures State() == FailCapture(old(State()), error)
    {
      if result.Pending? {
        result := CaptureFailed(error);
      }
    }

    method Complete()
      requires result.Pending?
      modifies this`result
      ensures State() == Project(old(State()))
    {
      var client := binding.project(applied);
      if client.None? {
        Fail(ProjectionFailed);
        return;
      }
      var checkpoint := binding.finalize(client.value);
      if checkpoint.None? {
        Fail(ProjectionFailed);
        return;
      }
      result := Captured(client.value, checkpoint.value);
    }

    method Record(pull: Pull) returns (r: Pull)
      modifies this
      ensures Pulled(r, State()) == CaptureNext(old(State()), pull)
    {
      r := pull;
      if pull.Fault? {
        if pull.error != EndOfStream {
          Fail(pull.error);
        }
        return;
      }
      var event := pull.event;
      if !IdentityMatches(binding, event) {
        Fail(IdentityMismatch);
        return Fault(IdentityMismatch);
      }
      applied := applied + [event];
      if !binding.folds(applied) && result.Pending? {
        Fail(FoldFailed);
        return;
      }
      var status := TerminalStatus(event);
      if status.None? {
        return;
      }
      if status.value != StatusCompleted {
        Fail(NotCompleted);
        return;
      }
      if result.Pending? {
        Complete();
      }
    }

    method Next() returns (pull: Pull)
      modifies this, upstream
      ensures Pulled(pull, Whole()) == SourceNext(old(Whole()))
    {
      pull := upstream.Next();
      pull := Record(pull);
    }
  }

  class CheckpointCommitter {
    const store: Response -> bool
    var done: bool
    var error: Option<Error>
    ghost var puts: nat

    ghost function State(): Committer
      reads this
    {
      Committer(done, error, puts, store)
    }

    constructor (store: Response -> bool)
      ensures State() == Committer(false, None, 0, store)
    {
      this.store := store;
      done, error, puts := false, None, 0;
    }

    method CommitDocument(response: Response) returns (failure: Option<Error>)
      modifies this
      ensures State() == Commit(old(State()), response) && failure == error
    {
      if !done {
        done := true;
        puts := puts + 1;
        var accepted := store(response);
        error := if accepted then None else Some(CommitFailed(StoreFailed));
      }
      return error;
    }
  }

  class CheckpointTerminalGate {
    const capture: CheckpointCaptureStream
    const committer: CheckpointCommitter
    var held: seq<Event>
    var pending: seq<Event>
    var terminal: Option<Error>
    var last: Option<Event>
    var response: string

    ghost function Whole(): Pipeline
      reads this, capture, capture.upstream, committer
    {
      Pipeline(capture.Whole(), Gate(held, pending, terminal, last, response), committer.State())
    }

    constructor (capture: CheckpointCaptureStream, committer: CheckpointCommitter)
      ensures this.capture == capture && this.committer == committer
      ensures Whole() == Pipeline(capture.Whole(), Gate([], [], None, None, ""), committer.State())
    {
      this.capture := capture;
      this.committer := committer;
      held, pending, terminal, last, response := [], [], None, None, "";
    }

    // Pulling the gate is GateNext of the whole pipeline.
    method Next() returns (pull: Pull)
      modifies this, capture, capture.upstream, committer
      ensures Pulled(pull, Whole()) == GateNext(old(Whole()))
      decreases Left(capture.upstream.State()), if pending == [] then 1 else 0
    {
      if pending != [] {
        pull := Got(pending[0]);
        last := Some(pending[0]);
        pending := pending[1..];
        return;
      }
      if terminal.Some? {
        return Fault(terminal.value);
      }
      pull := capture.Next();
      if pull.Fault? {
        return;
      }
      var event := pull.event;
      if event.kind == Finish {
        held := held + [event];
        pull := Next();
        return;
      }
      if StartsResponse(event) {
        response := event.envelope;
      }
      var status := TerminalStatus(event);
      if status.None? {
        last := Some(event);
        return;
      }
      pull := SettleEnd(event);
    }

    method SettleEnd(event: Event) returns (pull: Pull)
      requires IsTerminal(event) && pending == []
      modifies this, capture, capture.upstream, committer
      ensures Pulled(pull, Whole()) == Settle(old(Whole()), event)
      decreases Left(capture.upstream.State()), 2
    {
      if TerminalStatus(event).value == StatusCompleted {
        var captured := capture.result;
        if !captured.Captured? {
          return Fault(CommitFailed(if captured.CaptureFailed? then captured.error else CaptureIncomplete));
        }
        var failure := committer.CommitDocument(captured.checkpoint);
        if failure.Some? {
          var base := if last.Some? then last.value else event;
          pending := FailureEvents(base.(envelope := response, parent := ""), COMMIT_FAILURE_CODE, COMMIT_FAILURE_MESSAGE);
          held := [];
          terminal := failure;
          pull := Next();
          return;
        }
      }
      pending := held + [event];
      held := [];
      pull := Next();
    }
  }

  // A pipeline assembled over a fresh upstream starts as Opening says.
  method NewPipeline(input: seq<Pull>, binding: Binding, store: Response -> bool) returns (gate: CheckpointTerminalGate)
    ensures fresh(gate) && fresh(gate.capture) && fresh(gate.capture.upstream) && fresh(gate.committer)
    ensures gate.Whole() == Opening(input, binding, store)
  {
    var upstream := new TerminalResponseStream(input);
    var capture := new CheckpointCaptureStream(upstream, binding);
    var committer := new CheckpointCommitter(store);
    gate := new CheckpointTerminalGate(capture, committer);
  }
}
