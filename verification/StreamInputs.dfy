// What a client sees of a response, told from the upstream's own events: what is
// captured, what is committed, and what becomes of an upstream that breaks off.
module StreamInputs {
  import opened Wrappers
  import opened Streams
  import opened StreamLaws

  // ------------------------------------------------------------ clean events

  // An upstream event as it leaves the terminal stream: a response start loses
  // the provider's own identifier, everything else passes unchanged.
  predicate Passed(before: Event, after: Event) {
    if before.kind == EnvelopeStart && before.payload == StartPayload(true)
    then after == before.(nativeId := "") else after == before
  }

  lemma {:induction false} SanitizedPasses(event: Event)
    ensures Passed(event, Sanitized(event))
    ensures IsTerminal(Sanitized(event)) == IsTerminal(event) && Sanitized(event).kind == event.kind
    ensures StartsResponse(Sanitized(event)) == StartsResponse(event)
  {
  }

  function Cleaned(events: seq<Event>): (clean: seq<Event>)
    ensures |clean| == |events|
    ensures forall i :: 0 <= i < |events| ==> clean[i] == Sanitized(events[i])
  {
    seq(|events|, i requires 0 <= i < |events| => Sanitized(events[i]))
  }

  lemma {:induction false} CleanedFront(event: Event, rest: seq<Event>)
    ensures Cleaned([event] + rest) == [Sanitized(event)] + Cleaned(rest)
  {
  }

  lemma {:induction false} CleanedBack(rest: seq<Event>, event: Event)
    ensures Cleaned(rest + [event]) == Cleaned(rest) + [Sanitized(event)]
  {
  }

  lemma {:induction false} WrappedFront(event: Event, rest: seq<Event>)
    ensures Wrapped([event] + rest) == [Got(event)] + Wrapped(rest)
  {
  }

  predicate Open(events: seq<Event>) {
    forall i :: 0 <= i < |events| ==> !IsTerminal(events[i])
  }

  predicate Started(events: seq<Event>) {
    exists i :: 0 <= i < |events| && StartsResponse(events[i])
  }

  // -------------------------------------------------------------- the capture

  // The event is not an identity, or it is exactly the one expected: this
  // response, and no handle but one of the attempted target.
  ghost predicate Ours(binding: Binding, event: Event) {
    event.kind != ResponseIdentity
    || exists responses: Option<NativeHandle>, interactions: Option<NativeHandle> ::
         && event.payload == IdentityPayload(binding.swobuId, responses, interactions)
         && responses in {None, Some(binding.target)} && interactions in {None, Some(binding.target)}
  }

  lemma {:induction false} OursMatches(binding: Binding, event: Event)
    ensures Ours(binding, event) <==> IdentityMatches(binding, event)
  {
    if IdentityMatches(binding, event) && event.kind == ResponseIdentity {
      var responses, interactions := event.payload.responses, event.payload.interactions;
      assert event.payload == IdentityPayload(binding.swobuId, responses, interactions);
    }
  }

  // Every event is ours, and every prefix folds.
  ghost predicate Coherent(binding: Binding, events: seq<Event>) {
    forall i :: 0 <= i < |events| ==> Ours(binding, events[i]) && binding.folds(events[..i + 1])
  }

  // What is captured of a completed response: its projection, and the checkpoint
  // form of it, if it is coherent and both exist.
  function Checkpointed(binding: Binding, events: seq<Event>): Option<Response> {
    match binding.project(events)
    case None => None
    case Some(client) => binding.finalize(client)
  }

  // The capture after events that were all ours and folded.
  function Holding(binding: Binding, applied: seq<Event>): Capture {
    Capture(binding, applied, Pending)
  }

  lemma {:induction false} CapturesOne(binding: Binding, applied: seq<Event>, event: Event)
    requires !IsTerminal(event) && Ours(binding, event) && binding.folds(applied + [event])
    ensures CaptureNext(Holding(binding, applied), Got(event)) == Pulled(Got(event), Holding(binding, applied + [event]))
  {
    OursMatches(binding, event);
  }

  // The source as it stands after these upstream events.
  function After(binding: Binding, events: seq<Event>, rest: seq<Pull>): Source {
    Source(Terminal(rest, Begun(events), false, [], if events == [] then None else Some(Sanitized(events[|events| - 1])), None),
           Holding(binding, Cleaned(events)))
  }

  predicate Begun(events: seq<Event>) {
    events != [] && (Begun(events[..|events| - 1]) || StartsResponse(events[|events| - 1]))
  }

  lemma {:induction false} BegunIsStarted(events: seq<Event>)
    ensures Begun(events) <==> Started(events)
  {
    if events != [] {
      var front := events[..|events| - 1];
      BegunIsStarted(front);
      assert forall i :: 0 <= i < |front| ==> front[i] == events[i];
    }
  }

  lemma {:induction false} OneMore(binding: Binding, events: seq<Event>, event: Event, rest: seq<Pull>)
    requires !IsTerminal(event) && Ours(binding, Sanitized(event)) && binding.folds(Cleaned(events + [event]))
    ensures SourceNext(After(binding, events, [Got(event)] + rest))
         == Pulled(Got(Sanitized(event)), After(binding, events + [event], rest))
  {
    SanitizedPasses(event);
    CleanedBack(events, event);
    CapturesOne(binding, Cleaned(events), Sanitized(event));
    assert ([Got(event)] + rest)[1..] == rest;
    assert (events + [event])[..|events|] == events;
  }

  lemma {:induction false} FeedsJoin(a: Source, x: seq<Pull>, b: Source, y: seq<Pull>, c: Source)
    requires Feeds(a, x, b) && Feeds(b, y, c)
    ensures Feeds(a, x + y, c)
    decreases |x|
  {
    if x == [] {
      assert x + y == y;
    } else {
      assert (x + y)[1..] == x[1..] + y;
      FeedsJoin(SourceNext(a).state, x[1..], b, y, c);
    }
  }

  lemma {:induction false} FeedsOne(a: Source, pull: Pull, b: Source)
    requires SourceNext(a) == Pulled(pull, b)
    ensures Feeds(a, [pull], b)
  {
    assert [pull][1..] == [];
  }

  lemma {:induction false} CoherentPrefix(binding: Binding, events: seq<Event>, event: Event)
    requires Coherent(binding, Cleaned(events + [event]))
    ensures Coherent(binding, Cleaned(events)) && Ours(binding, Sanitized(event)) && binding.folds(Cleaned(events + [event]))
  {
    var all, front := Cleaned(events + [event]), Cleaned(events);
    CleanedBack(events, event);
    assert all[..|events| + 1] == all;
    assert Ours(binding, all[|events|]);
    forall i | 0 <= i < |front|
      ensures Ours(binding, front[i]) && binding.folds(front[..i + 1])
    {
      assert all[..i + 1] == front[..i + 1] && all[i] == front[i];
    }
  }

  // Coherent events come out clean and are all captured.
  lemma {:induction false} BodyFeeds(binding: Binding, events: seq<Event>, rest: seq<Pull>)
    requires Open(events) && Coherent(binding, Cleaned(events))
    ensures Feeds(After(binding, [], Wrapped(events) + rest), Wrapped(Cleaned(events)), After(binding, events, rest))
  {
    if events == [] {
      assert Wrapped(events) + rest == rest;
    } else {
      var front, last := events[..|events| - 1], events[|events| - 1];
      assert events == front + [last];
      CoherentPrefix(binding, front, last);
      BodyFeeds(binding, front, [Got(last)] + rest);
      WrappedSplits(front, last, rest);
      FeedsBack(binding, After(binding, [], Wrapped(events) + rest), front, last, rest);
    }
  }

  lemma {:induction false} WrappedSplits(front: seq<Event>, last: Event, rest: seq<Pull>)
    ensures Wrapped(front + [last]) + rest == Wrapped(front) + ([Got(last)] + rest)
    ensures Wrapped(Cleaned(front + [last])) == Wrapped(Cleaned(front)) + [Got(Sanitized(last))]
  {
    CleanedBack(front, last);
  }

  lemma {:induction false} FeedsBack(binding: Binding, source: Source, front: seq<Event>, last: Event, rest: seq<Pull>)
    requires Feeds(source, Wrapped(Cleaned(front)), After(binding, front, [Got(last)] + rest))
    requires !IsTerminal(last) && Ours(binding, Sanitized(last)) && binding.folds(Cleaned(front + [last]))
    ensures Feeds(source, Wrapped(Cleaned(front + [last])), After(binding, front + [last], rest))
  {
    OneMore(binding, front, last, rest);
    FeedsOne(After(binding, front, [Got(last)] + rest), Got(Sanitized(last)), After(binding, front + [last], rest));
    WrappedSplits(front, last, rest);
    FeedsJoin(source, Wrapped(Cleaned(front)), After(binding, front, [Got(last)] + rest), [Got(Sanitized(last))],
              After(binding, front + [last], rest));
  }

  // What the capture holds once a completed end has come out: the projection of
  // every event with its checkpoint form, or a failed projection when either is
  // missing.
  function AtCompletion(binding: Binding, events: seq<Event>): Capture {
    Capture(binding, events,
            match binding.project(events)
            case None => CaptureFailed(ProjectionFailed)
            case Some(client) =>
              match binding.finalize(client)
              case None => CaptureFailed(ProjectionFailed)
              case Some(checkpoint) => Captured(client, checkpoint))
  }

  lemma {:induction false} EndIsCaptured(binding: Binding, events: seq<Event>, end: Event, rest: seq<Pull>)
    requires CompletedEnd(end) && binding.folds(Cleaned(events + [end]))
    ensures SourceNext(After(binding, events, [Got(end)] + rest)).pull == Got(end)
    ensures SourceNext(After(binding, events, [Got(end)] + rest)).state.capture
         == AtCompletion(binding, Cleaned(events + [end]))
  {
    CleanedBack(events, end);
    OursMatches(binding, end);
    assert Sanitized(end) == end;
  }

  // From the opening, for every coherent upstream that reaches a completed end:
  // everything comes out clean, and the capture then holds exactly the projection
  // of all of it and its checkpoint form.
  lemma {:induction false} CaptureAtTheEnd(binding: Binding, store: Response -> bool, body: seq<Event>, end: Event, rest: seq<Pull>)
    returns (after: Source)
    requires Open(body) && CompletedEnd(end) && Coherent(binding, Cleaned(body + [end]))
    ensures Feeds(Opening(Wrapped(body) + ([Got(end)] + rest), binding, store).source, Wrapped(Cleaned(body)) + [Got(end)], after)
    ensures after.capture.applied == Cleaned(body + [end])
    ensures match binding.project(Cleaned(body + [end]))
            case None => after.capture.result == CaptureFailed(ProjectionFailed)
            case Some(client) =>
              match binding.finalize(client)
              case None => after.capture.result == CaptureFailed(ProjectionFailed)
              case Some(checkpoint) => after.capture.result == Captured(client, checkpoint)
  {
    CoherentPrefix(binding, body, end);
    BodyFeeds(binding, body, [Got(end)] + rest);
    EndIsCaptured(binding, body, end, rest);
    after := SourceNext(After(binding, body, [Got(end)] + rest)).state;
    FeedsOne(After(binding, body, [Got(end)] + rest), Got(end), after);
    FeedsJoin(After(binding, [], Wrapped(body) + ([Got(end)] + rest)), Wrapped(Cleaned(body)),
              After(binding, body, [Got(end)] + rest), [Got(end)], after);
  }

  // ------------------------------------------------------------- what comes out

  lemma {:induction false} CleanIsUnfinished(body: seq<Event>)
    requires Open(body)
    ensures Unfinished(Wrapped(Cleaned(body)))
  {
    forall i | 0 <= i < |body|
      ensures !IsTerminal(Cleaned(body)[i])
    {
      SanitizedPasses(body[i]);
    }
  }

  // What the client is told when the store refuses: one error and one error end,
  // next after the last event it saw.
  function Unfinalized(fed: seq<Pull>, end: Event): seq<Event> {
    var seen := if LastVisible(fed, None).Some? then LastVisible(fed, None).value else end;
    [Event(seen.exchange, seen.number + 1, ErrorKind, OpenedIn(fed, ""), "",
           ErrorPayload("internal", COMMIT_FAILURE_MESSAGE), ""),
     Event(seen.exchange, seen.number + 2, EnvelopeEnd, OpenedIn(fed, ""), "", EndPayload(true, StatusError), "")]
  }

  // The output of a coherent response that reaches its completed end, by what the
  // store answers for the checkpoint form of its projection.
  lemma {:induction false} ResponseOutput(
    binding: Binding, store: Response -> bool, body: seq<Event>, end: Event, rest: seq<Pull>, p: Pipeline,
    fed: seq<Pull>, out: seq<Pull>, finish: seq<Event>, m: nat)
    requires Open(body) && CompletedEnd(end) && Coherent(binding, Cleaned(body + [end]))
    requires p == Opening(Wrapped(body) + ([Got(end)] + rest), binding, store)
    requires fed == Wrapped(Cleaned(body)) && out == Visible(fed) && finish == Finishes(fed) + [end]
    ensures match Checkpointed(binding, Cleaned(body + [end]))
            case None =>
              && Drain(p, |out| + (m + 1)).pulls
                 == out + ([Fault(CommitFailed(ProjectionFailed))] + Repeated(Fault(EndOfStream), m))
              && Drain(p, |out| + (m + 1)).state.committer.puts == 0
            case Some(checkpoint) =>
              if store(checkpoint) then
                && Drain(p, |out| + |finish| + m).pulls == out + Wrapped(finish) + Repeated(Fault(EndOfStream), m)
                && Stored(Drain(p, |out| + |finish| + m).state.committer)
              else
                Drain(p, |out| + 2 + m).pulls
                == out + Wrapped(Unfinalized(fed, end)) + Repeated(Fault(CommitFailed(StoreFailed)), m)
  {
    var after := CaptureAtTheEnd(binding, store, body, end, rest);
    CleanIsUnfinished(body);
    if Checkpointed(binding, Cleaned(body + [end])).None? {
      UncapturedOutput(p, fed, end, after, m);
    } else if store(Checkpointed(binding, Cleaned(body + [end])).value) {
      SuccessOutput(p, fed, end, after, out, finish, m);
    } else {
      RefusedOutput(p, fed, end, after, out, m);
    }
  }

  lemma {:induction false} RefusedOutput(p: Pipeline, fed: seq<Pull>, end: Event, after: Source, out: seq<Pull>, m: nat)
    requires p.gate == Gate([], [], None, None, "")
    requires Unfinished(fed) && CompletedEnd(end) && Feeds(p.source, fed + [Got(end)], after)
    requires Committable(p, after) && !p.committer.store(after.capture.result.checkpoint) && out == Visible(fed)
    ensures Drain(p, |out| + 2 + m).pulls
         == out + Wrapped(Unfinalized(fed, end)) + Repeated(Fault(CommitFailed(StoreFailed)), m)
  {
    CommitFailureShape(p, fed, end, after);
    CommitFailureOutput(p, fed, end, after, out, Unfinalized(fed, end), m);
  }

  // ------------------------------------------------- an upstream that breaks off

  // The code and message a broken upstream is reported with: its own when the
  // backend sent any, a fixed one for each kind of break otherwise.
  predicate Explains(error: Error, code: string, message: string) {
    match error
    case EndOfStream => code == "provider_stream_incomplete" && message == "provider stream ended before completed"
    case Backend(Some(detail)) =>
      && (detail.code != "" ==> code == detail.code)
      && (detail.code == "" && detail.kind != "" ==> code == detail.kind)
      && (detail.code == "" && detail.kind == "" ==> code == "provider_stream_failed")
      && (detail.message != "" ==> message == detail.message)
      && (detail.message == "" ==> message == "provider stream failed after response start")
    case _ => code == "provider_stream_decode_failed" && message == "provider stream failed after response start"
  }

  // One error and one error end, next after the last event.
  predicate Concludes(failure: seq<Event>, last: Event, error: Error) {
    && |failure| == 2
    && failure[0].kind == ErrorKind && failure[0].payload.ErrorPayload?
    && Explains(error, failure[0].payload.code, failure[0].payload.message)
    && failure[0] == Event(last.exchange, last.number + 1, ErrorKind, last.envelope, last.parent, failure[0].payload, "")
    && failure[1] == Event(last.exchange, last.number + 2, EnvelopeEnd, last.envelope, last.parent, EndPayload(true, StatusError), "")
  }

  lemma {:induction false} ReportedAs(last: Event, error: Error)
    ensures Concludes(FailureEvents(last, FailureCode(error).0, FailureCode(error).1), last, error)
  {
  }

  lemma {:induction false} StartedHasLast(events: seq<Event>)
    ensures Started(events) ==> events != []
  {
  }

  lemma {:induction false} BreakIsReported(binding: Binding, body: seq<Event>, error: Error, rest: seq<Pull>)
    returns (failure: seq<Event>, after: Source)
    requires Started(body) && error != Cancelled
    ensures body != [] && Concludes(failure, Sanitized(body[|body| - 1]), error)
    ensures Feeds(After(binding, body, [Fault(error)] + rest), Wrapped(failure), after)
    ensures after.terminal.terminated && after.terminal.pending == [] && after.terminal.failure == Some(error)
  {
    StartedHasLast(body);
    BegunIsStarted(body);
    var last := Sanitized(body[|body| - 1]);
    failure := FailureEvents(last, FailureCode(error).0, FailureCode(error).1);
    ReportedAs(last, error);
    var start := After(binding, body, [Fault(error)] + rest);
    assert ([Fault(error)] + rest)[1..] == rest;
    var middle := SourceNext(start).state;
    assert SourceNext(start).pull == Got(failure[0]);
    assert middle.terminal.pending == [failure[1]];
    after := SourceNext(middle).state;
    assert SourceNext(middle).pull == Got(failure[1]);
    FeedsOne(start, Got(failure[0]), middle);
    FeedsOne(middle, Got(failure[1]), after);
    FeedsJoin(start, [Got(failure[0])], middle, [Got(failure[1])], after);
    assert Wrapped(failure) == [Got(failure[0])] + [Got(failure[1])];
  }

  lemma {:induction false} VisibleBack(fed: seq<Pull>, event: Event)
    requires event.kind != Finish
    ensures Visible(fed + [Got(event)]) == Visible(fed) + [Got(event)]
    ensures Finishes(fed + [Got(event)]) == Finishes(fed)
  {
    var more := fed + [Got(event)];
    if fed == [] {
      assert more == [Got(event)] && more[1..] == [];
    } else {
      assert more[0] == fed[0] && more[1..] == fed[1..] + [Got(event)];
      VisibleBack(fed[1..], event);
    }
  }

  // Everything before a fault passes or is held, then the fault passes.
  lemma {:induction false} FaultPasses(p: Pipeline, fed: seq<Pull>, start: Source, error: Error)
    requires p.gate.pending == [] && p.gate.terminal.None? && Unfinished(fed)
    requires Feeds(p.source, fed, start) && SourceNext(start).pull == Fault(error)
    ensures Drain(p, |Visible(fed)| + 1).pulls == Visible(fed) + [Fault(error)]
    decreases |fed|
  {
    if fed == [] {
      PassesThrough(p, Fault(error), SourceNext(start).state);
      DrainMore(p, GateNext(p), 0);
    } else {
      var source := SourceNext(p.source).state;
      assert Unfinished(fed[1..]);
      if IsFinish(fed[0]) {
        HoldsBack(p, fed[0], source);
        var next := p.(source := source, gate := p.gate.(held := p.gate.held + [fed[0].event]));
        FaultPasses(next, fed[1..], start, error);
        HeldThenFault(p, next, Visible(fed[1..]), Visible(fed), error);
      } else {
        PassesThrough(p, fed[0], source);
        FaultPasses(GateNext(p).state, fed[1..], start, error);
        ShownThenFault(p, GateNext(p), fed[0], Visible(fed[1..]), Visible(fed), error);
      }
    }
  }

  lemma {:induction false} HeldThenFault(p: Pipeline, next: Pipeline, rest: seq<Pull>, all: seq<Pull>, error: Error)
    requires GateNext(p) == GateNext(next) && all == [] + rest
    requires Drain(next, |rest| + 1).pulls == rest + [Fault(error)]
    ensures Drain(p, |all| + 1).pulls == all + [Fault(error)]
  {
    assert all == rest;
    DrainAgrees(p, next, |all| + 1);
  }

  lemma {:induction false} ShownThenFault(p: Pipeline, r: Pulled<Pipeline>, first: Pull, rest: seq<Pull>, all: seq<Pull>, error: Error)
    requires r == GateNext(p) && r.pull == first && all == [first] + rest
    requires Drain(r.state, |rest| + 1).pulls == rest + [Fault(error)]
    ensures Drain(p, |all| + 1).pulls == all + [Fault(error)]
  {
    DrainMore(p, r, |rest| + 1);
    assert [first] + (rest + [Fault(error)]) == all + [Fault(error)];
  }

  lemma {:induction false} BrokenFeed(
    p: Pipeline, fed: seq<Pull>, failure: seq<Event>, after: Source, out: seq<Pull>, finish: seq<Event>, m: nat)
    requires p.gate == Gate([], [], None, None, "") && Unfinished(fed)
    requires |failure| == 2 && failure[0].kind == ErrorKind && TerminalStatus(failure[1]) == Some(StatusError)
    requires Feeds(p.source, fed + Wrapped(failure), after)
    requires after.terminal.terminated && after.terminal.pending == []
    requires out == Visible(fed) + [Got(failure[0])] && finish == Finishes(fed) + [failure[1]]
    ensures Drain(p, |out| + |finish| + m).pulls == out + Wrapped(finish) + Repeated(Fault(EndOfStream), m)
    ensures Drain(p, |out| + |finish| + m).state.committer == p.committer
  {
    var body := fed + [Got(failure[0])];
    VisibleBack(fed, failure[0]);
    assert fed + Wrapped(failure) == body + [Got(failure[1])];
    FailedResponseOutput(p, body, failure[1], after, out, finish, m);
  }

  // A coherent upstream that breaks off after the response started, other than by
  // cancellation: the visible events, one error that explains it, the held finish
  // events, one error end, then only the end of the stream, and nothing committed.
  lemma {:induction false} BrokenOutput(
    binding: Binding, store: Response -> bool, body: seq<Event>, error: Error, rest: seq<Pull>, p: Pipeline,
    fed: seq<Pull>, m: nat)
    returns (failure: seq<Event>, out: seq<Pull>, finish: seq<Event>)
    requires Open(body) && Coherent(binding, Cleaned(body)) && Started(body) && error != Cancelled
    requires p == Opening(Wrapped(body) + ([Fault(error)] + rest), binding, store) && fed == Wrapped(Cleaned(body))
    ensures body != [] && Concludes(failure, Sanitized(body[|body| - 1]), error)
    ensures out == Visible(fed) + [Got(failure[0])] && finish == Finishes(fed) + [failure[1]]
    ensures Drain(p, |out| + |finish| + m).pulls == out + Wrapped(finish) + Repeated(Fault(EndOfStream), m)
    ensures Drain(p, |out| + |finish| + m).state.committer.puts == 0
  {
    var after;
    failure, after := BreakIsReported(binding, body, error, rest);
    BodyFeeds(binding, body, [Fault(error)] + rest);
    FeedsJoin(p.source, fed, After(binding, body, [Fault(error)] + rest), Wrapped(failure), after);
    CleanIsUnfinished(body);
    out, finish := Visible(fed) + [Got(failure[0])], Finishes(fed) + [failure[1]];
    BrokenFeed(p, fed, failure, after, out, finish, m);
  }

  // Before the response started, and on cancellation, the break itself comes out
  // and no event is made up for it.
  lemma {:induction false} PlainBreak(
    binding: Binding, store: Response -> bool, body: seq<Event>, error: Error, rest: seq<Pull>, p: Pipeline,
    fed: seq<Pull>, out: seq<Pull>)
    requires Open(body) && Coherent(binding, Cleaned(body)) && (!Started(body) || error == Cancelled)
    requires p == Opening(Wrapped(body) + ([Fault(error)] + rest), binding, store)
    requires fed == Wrapped(Cleaned(body)) && out == Visible(fed)
    ensures Drain(p, |out| + 1).pulls == out + [Fault(error)]
  {
    var start := After(binding, body, [Fault(error)] + rest);
    BegunIsStarted(body);
    BodyFeeds(binding, body, [Fault(error)] + rest);
    CleanIsUnfinished(body);
    assert SourceNext(start).pull == Fault(error);
    FaultPasses(p, fed, start, error);
  }

  // A response the upstream itself ends in error is passed on as it came.
  lemma {:induction false} ErrorEndOutput(
    binding: Binding, store: Response -> bool, body: seq<Event>, end: Event, rest: seq<Pull>, p: Pipeline,
    fed: seq<Pull>, out: seq<Pull>, finish: seq<Event>, m: nat)
    requires Open(body) && Coherent(binding, Cleaned(body)) && TerminalStatus(end) == Some(StatusError)
    requires p == Opening(Wrapped(body) + ([Got(end)] + rest), binding, store)
    requires fed == Wrapped(Cleaned(body)) && out == Visible(fed) && finish == Finishes(fed) + [end]
    ensures Drain(p, |out| + |finish| + m).pulls == out + Wrapped(finish) + Repeated(Fault(EndOfStream), m)
    ensures Drain(p, |out| + |finish| + m).state.committer.puts == 0
  {
    var start := After(binding, body, [Got(end)] + rest);
    BodyFeeds(binding, body, [Got(end)] + rest);
    CleanIsUnfinished(body);
    assert SourceNext(start).pull == Got(end);
    var after := SourceNext(start).state;
    FeedsOne(start, Got(end), after);
    FeedsJoin(p.source, fed, start, [Got(end)], after);
    FailedResponseOutput(p, fed, end, after, out, finish, m);
  }

  // ------------------------------------------------------ an incoherent response

  // What comes out of the capture for a clean event: itself, or a mismatch.
  ghost function Yield(binding: Binding, event: Event): Pull {
    if Ours(binding, event) then Got(event) else Fault(IdentityMismatch)
  }

  ghost function Yields(binding: Binding, events: seq<Event>): (pulls: seq<Pull>)
    ensures |pulls| == |events|
  {
    seq(|events|, i requires 0 <= i < |events| => Yield(binding, events[i]))
  }

  // The source after these events, coherent or not, with whatever it captured.
  ghost predicate Stands(source: Source, binding: Binding, events: seq<Event>, rest: seq<Pull>) {
    && source.terminal == After(binding, events, rest).terminal
    && source.capture.binding == binding
    && (if Coherent(binding, Cleaned(events)) then source.capture == Holding(binding, Cleaned(events))
        else source.capture.result in {CaptureFailed(IdentityMismatch), CaptureFailed(FoldFailed)})
  }

  lemma {:induction false} IncoherentStays(binding: Binding, events: seq<Event>, event: Event)
    ensures Coherent(binding, Cleaned(events + [event])) <==>
            && Coherent(binding, Cleaned(events))
            && Ours(binding, Sanitized(event)) && binding.folds(Cleaned(events + [event]))
  {
    if Coherent(binding, Cleaned(events + [event])) {
      CoherentPrefix(binding, events, event);
    }
    var all, front := Cleaned(events + [event]), Cleaned(events);
    CleanedBack(events, event);
    assert all[..|events| + 1] == all;
    if Coherent(binding, front) && Ours(binding, Sanitized(event)) && binding.folds(all) {
      forall i | 0 <= i < |all|
        ensures Ours(binding, all[i]) && binding.folds(all[..i + 1])
      {
        if i < |front| {
          assert all[..i + 1] == front[..i + 1] && all[i] == front[i];
        } else {
          assert all[..i + 1] == all && all[i] == Sanitized(event);
        }
      }
      assert Coherent(binding, all);
    }
  }

  lemma {:induction false} StandsOn(source: Source, binding: Binding, events: seq<Event>, event: Event, rest: seq<Pull>)
    requires Stands(source, binding, events, [Got(event)] + rest) && !IsTerminal(event)
    ensures SourceNext(source).pull == Yield(binding, Sanitized(event))
    ensures Stands(SourceNext(source).state, binding, events + [event], rest)
  {
    SanitizedPasses(event);
    CleanedBack(events, event);
    OursMatches(binding, Sanitized(event));
    IncoherentStays(binding, events, event);
    assert ([Got(event)] + rest)[1..] == rest;
    assert (events + [event])[..|events|] == events;
  }

  lemma {:induction false} YieldsBack(binding: Binding, front: seq<Event>, last: Event)
    ensures Yields(binding, Cleaned(front + [last])) == Yields(binding, Cleaned(front)) + [Yield(binding, Sanitized(last))]
  {
    CleanedBack(front, last);
  }

  lemma {:induction false} BodyYields(binding: Binding, events: seq<Event>, rest: seq<Pull>) returns (after: Source)
    requires Open(events)
    ensures Feeds(After(binding, [], Wrapped(events) + rest), Yields(binding, Cleaned(events)), after)
    ensures Stands(after, binding, events, rest)
  {
    if events == [] {
      after := After(binding, [], rest);
      assert Wrapped(events) + rest == rest && Yields(binding, Cleaned(events)) == [];
    } else {
      var front, last := events[..|events| - 1], events[|events| - 1];
      assert events == front + [last];
      var before := BodyYields(binding, front, [Got(last)] + rest);
      WrappedSplits(front, last, rest);
      StandsOn(before, binding, front, last, rest);
      after := SourceNext(before).state;
      YieldsBack(binding, front, last);
      FeedsOne(before, Yield(binding, Sanitized(last)), after);
      FeedsJoin(After(binding, [], Wrapped(events) + rest), Yields(binding, Cleaned(front)), before,
                [Yield(binding, Sanitized(last))], after);
    }
  }

  lemma {:induction false} YieldsAreUnfinished(binding: Binding, body: seq<Event>)
    requires Open(body)
    ensures Unfinished(Yields(binding, Cleaned(body)))
  {
    forall i | 0 <= i < |body|
      ensures !IsTerminal(Cleaned(body)[i])
    {
      SanitizedPasses(body[i]);
    }
  }

  lemma {:induction false} EndIsNotCaptured(source: Source, binding: Binding, events: seq<Event>, end: Event, rest: seq<Pull>)
    requires Stands(source, binding, events, [Got(end)] + rest) && CompletedEnd(end)
    requires !Coherent(binding, Cleaned(events + [end]))
    ensures SourceNext(source).pull == Got(end)
    ensures SourceNext(source).state.capture.result in {CaptureFailed(IdentityMismatch), CaptureFailed(FoldFailed)}
  {
    assert Sanitized(end) == end;
    CleanedBack(events, end);
    OursMatches(binding, end);
    IncoherentStays(binding, events, end);
  }

  // A response that is not coherent is never captured, whatever it projects to:
  // what comes out before its completed end comes out, each foreign identity as a
  // mismatch, and the end is withheld behind a commit error for good.
  lemma {:induction false} IncoherentOutput(
    binding: Binding, store: Response -> bool, body: seq<Event>, end: Event, rest: seq<Pull>, p: Pipeline,
    out: seq<Pull>, m: nat)
    returns (cause: Error)
    requires Open(body) && CompletedEnd(end) && !Coherent(binding, Cleaned(body + [end]))
    requires p == Opening(Wrapped(body) + ([Got(end)] + rest), binding, store)
    requires out == Visible(Yields(binding, Cleaned(body)))
    ensures cause in {IdentityMismatch, FoldFailed}
    ensures Drain(p, |out| + (m + 1)).pulls == out + ([Fault(CommitFailed(cause))] + Repeated(Fault(EndOfStream), m))
    ensures Drain(p, |out| + (m + 1)).state.committer.puts == 0
  {
    var fed, after := IncoherentFeeds(binding, body, end, rest);
    YieldsAreUnfinished(binding, body);
    cause := after.capture.result.error;
    UncapturedOutput(p, fed, end, after, m);
  }

  lemma {:induction false} IncoherentFeeds(binding: Binding, body: seq<Event>, end: Event, rest: seq<Pull>)
    returns (fed: seq<Pull>, after: Source)
    requires Open(body) && CompletedEnd(end) && !Coherent(binding, Cleaned(body + [end]))
    ensures fed == Yields(binding, Cleaned(body))
    ensures Feeds(After(binding, [], Wrapped(body) + ([Got(end)] + rest)), fed + [Got(end)], after)
    ensures after.capture.result in {CaptureFailed(IdentityMismatch), CaptureFailed(FoldFailed)}
  {
    fed := Yields(binding, Cleaned(body));
    var before := BodyYields(binding, body, [Got(end)] + rest);
    EndIsNotCaptured(before, binding, body, end, rest);
    after := SourceNext(before).state;
    FeedsOne(before, Got(end), after);
    FeedsJoin(After(binding, [], Wrapped(body) + ([Got(end)] + rest)), fed, before, [Got(end)], after);
  }

  // ------------------------------------------------------ what stays once settled

  // The captured result, or the failure to capture, and a read failure already
  // turned into events.
  predicate Keeps(before: Source, after: Source) {
    && (!before.capture.result.Pending? ==> after.capture.result == before.capture.result)
    && (before.terminal.terminated ==> after.terminal.terminated && after.terminal.failure == before.terminal.failure)
  }

  lemma {:induction false} SourceKeeps(source: Source)
    ensures Keeps(source, SourceNext(source).state)
  {
  }

  lemma {:induction false} GateKeeps(p: Pipeline)
    ensures Keeps(p.source, GateNext(p).state.source)
    decreases Left(p.source.terminal)
  {
    var g := p.gate;
    if g.pending == [] && g.terminal.None? {
      var up := SourceNext(p.source);
      SourceKeeps(p.source);
      if up.pull.Got? && up.pull.event.kind == Finish {
        var next := p.(source := up.state, gate := g.(held := g.held + [up.pull.event]));
        GateKeeps(next);
        assert GateNext(p) == GateNext(next);
      }
    }
  }

  // However often the stream is pulled, the first result of the capture stands,
  // and so does the failure that ended the response.
  lemma {:induction false} FirstResultStands(p: Pipeline, n: nat)
    ensures Keeps(p.source, Drain(p, n).state.source)
    decreases n
  {
    if n > 0 {
      GateKeeps(p);
      FirstResultStands(GateNext(p).state, n - 1);
      DrainMore(p, GateNext(p), n - 1);
    }
  }

  // The last event among these pulls, or the one before them.
  function LastSeen(pulls: seq<Pull>, before: Option<Event>): Option<Event> {
    if pulls == [] then before
    else LastSeen(pulls[1..], if pulls[0].Got? then Some(pulls[0].event) else before)
  }

  // Nothing is held while events are on their way out.
  predicate ReleasedAll(g: Gate) {
    g.pending != [] ==> g.held == []
  }

  predicate Remembers(p: Pipeline, r: Pulled<Pipeline>) {
    && ReleasedAll(r.state.gate)
    && r.state.gate.last == (if r.pull.Got? then Some(r.pull.event) else p.gate.last)
    && (r.pull.Got? && (IsTerminal(r.pull.event) || r.state.gate.pending != []) ==> r.state.gate.held == [])
  }

  lemma {:induction false} GateRemembers(p: Pipeline)
    requires ReleasedAll(p.gate)
    ensures Remembers(p, GateNext(p))
    decreases Left(p.source.terminal)
  {
    var g := p.gate;
    if g.pending == [] && g.terminal.None? {
      var up := SourceNext(p.source);
      if up.pull.Got? && up.pull.event.kind == Finish {
        var next := p.(source := up.state, gate := g.(held := g.held + [up.pull.event]));
        GateRemembers(next);
        assert GateNext(p) == GateNext(next);
      }
    }
  }

  // However often the stream is pulled, the gate's last event is the last one the
  // client saw, and nothing stays held behind a terminal event.
  lemma {:induction false} LastIsLastSeen(p: Pipeline, n: nat)
    requires ReleasedAll(p.gate)
    ensures Drain(p, n).state.gate.last == LastSeen(Drain(p, n).pulls, p.gate.last)
    ensures ReleasedAll(Drain(p, n).state.gate)
    ensures n > 0 && Drain(p, n).pulls[n - 1].Got? && IsTerminal(Drain(p, n).pulls[n - 1].event) ==>
              Drain(p, n).state.gate.held == []
    decreases n
  {
    if n > 0 {
      var r := GateNext(p);
      GateRemembers(p);
      LastIsLastSeen(r.state, n - 1);
      DrainMore(p, r, n - 1);
      assert Drain(p, n).pulls[1..] == Drain(r.state, n - 1).pulls;
    }
  }
}
