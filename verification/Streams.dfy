// The response stream pipeline: terminal conversion, checkpoint capture and the
// commit gate (internal/exchange/terminal_response_stream.go,
// checkpoint_capture_stream.go, checkpoint_terminal_gate.go and
// checkpoint_committer.go), as functions on stream states.
module Streams {
  import opened Wrappers

  datatype Kind = EnvelopeStart | ResponseIdentity | Item | Finish | ErrorKind | EnvelopeEnd

  datatype EnvelopeStatus = StatusCompleted | StatusError

  datatype NativeHandle = NativeHandle(targetId: string, targetVersion: nat)

  datatype Payload =
    | NoPayload
    | StartPayload(response: bool)
    | IdentityPayload(swobuId: string, responses: Option<NativeHandle>, interactions: Option<NativeHandle>)
    | ErrorPayload(code: string, message: string)
    | EndPayload(response: bool, status: EnvelopeStatus)

  datatype Event = Event(
    exchange: string,
    number: int,
    kind: Kind,
    envelope: string,
    parent: string,
    payload: Payload,
    nativeId: string
  )

  // Structured detail a backend error may carry.
  datatype Detail = Detail(code: string, kind: string, message: string)

  datatype Error =
    | EndOfStream
    | Cancelled
    | Backend(detail: Option<Detail>)
    | OtherError
    | IdentityMismatch
    | FoldFailed
    | NotCompleted
    | ProjectionFailed
    | CaptureIncomplete
    | StoreFailed
    | CommitFailed(cause: Error)

  // One pull from a stream.
  datatype Pull = Got(event: Event) | Fault(error: Error)

  function TerminalStatus(event: Event): Option<EnvelopeStatus> {
    if event.kind == EnvelopeEnd && event.payload.EndPayload? && event.payload.response
    then Some(event.payload.status) else None
  }

  predicate IsTerminal(event: Event) {
    TerminalStatus(event).Some?
  }

  predicate StartsResponse(event: Event) {
    event.kind == EnvelopeStart && event.payload.StartPayload? && event.payload.response
  }

  // One error and one error end, numbered past the base event.
  function FailureEvents(base: Event, code: string, message: string): (events: seq<Event>)
    ensures |events| == 2
    ensures !IsTerminal(events[0]) && TerminalStatus(events[1]) == Some(StatusError)
    ensures events[0].kind == ErrorKind && events[1].kind != Finish
    ensures base.number < events[0].number < events[1].number
  {
    [Event(base.exchange, base.number + 1, ErrorKind, base.envelope, base.parent, ErrorPayload(code, message), ""),
     Event(base.exchange, base.number + 2, EnvelopeEnd, base.envelope, base.parent, EndPayload(true, StatusError), "")]
  }

  // ------------------------------------------------------- terminal conversion

  // input is what the upstream will still yield; beyond it the stream has ended.
  datatype Terminal = Terminal(
    input: seq<Pull>,
    started: bool,
    terminated: bool,
    pending: seq<Event>,
    last: Option<Event>,
    failure: Option<Error>
  )

  datatype Pulled<T> = Pulled(pull: Pull, state: T)

  function Upstream(input: seq<Pull>): Pulled<seq<Pull>> {
    if input == [] then Pulled(Fault(EndOfStream), []) else Pulled(input[0], input[1..])
  }

  function FailureCode(error: Error): (string, string) {
    match error
    case EndOfStream => ("provider_stream_incomplete", "provider stream ended before completed")
    case Backend(Some(detail)) =>
      (if detail.code != "" then detail.code else if detail.kind != "" then detail.kind else "provider_stream_failed",
       if detail.message != "" then detail.message else "provider stream failed after response start")
    case _ => ("provider_stream_decode_failed", "provider stream failed after response start")
  }

  // A read failure after the response started becomes one error and one error
  // end; cancellation is passed on as it is.
  predicate Converts(t: Terminal, error: Error) {
    t.started && t.last.Some? && error != Cancelled
  }

  function Sanitized(event: Event): Event {
    if StartsResponse(event) then event.(nativeId := "") else event
  }

  // How much can still come out: what recursion in the gate counts on.
  function Left(t: Terminal): nat {
    |t.input| + |t.pending|
  }

  function TerminalNext(t: Terminal): (r: Pulled<Terminal>)
    ensures r.pull.Got? && (r.pull.event.kind == Finish || IsTerminal(r.pull.event)) ==> Left(r.state) < Left(t)
  {
    if t.pending != [] then Pulled(Got(t.pending[0]), t.(pending := t.pending[1..]))
    else if t.terminated then Pulled(Fault(EndOfStream), t)
    else
      var up := Upstream(t.input);
      match up.pull
      case Fault(error) =>
        if Converts(t, error) then
          var events := FailureEvents(t.last.value, FailureCode(error).0, FailureCode(error).1);
          Pulled(Got(events[0]),
                 t.(input := up.state, failure := Some(error), pending := events[1..], terminated := true))
        else Pulled(Fault(error), t.(input := up.state))
      case Got(event) =>
        var clean := Sanitized(event);
        Pulled(Got(clean),
               t.(input := up.state, started := t.started || StartsResponse(event), last := Some(clean),
                  terminated := IsTerminal(clean)))
  }

  // ------------------------------------------------------------------- capture

  datatype Response = Response(body: string)

  // What the capture is bound to, and the projection it consults: whether the
  // events so far fold, what they project to, and how the checkpoint form is
  // derived.
  datatype Binding = Binding(
    swobuId: string,
    target: NativeHandle,
    folds: seq<Event> -> bool,
    project: seq<Event> -> Option<Response>,
    finalize: Response -> Option<Response>
  )

  datatype Snapshot = Pending | Captured(client: Response, checkpoint: Response) | CaptureFailed(error: Error)

  datatype Capture = Capture(binding: Binding, applied: seq<Event>, result: Snapshot)

  function FailCapture(c: Capture, error: Error): Capture {
    if c.result.Pending? then c.(result := CaptureFailed(error)) else c
  }

  predicate IdentityMatches(binding: Binding, event: Event) {
    event.kind == ResponseIdentity ==>
      && event.payload.IdentityPayload?
      && event.payload.swobuId == binding.swobuId
      && (event.payload.responses.Some? ==> event.payload.responses.value == binding.target)
      && (event.payload.interactions.Some? ==> event.payload.interactions.value == binding.target)
  }

  function Project(c: Capture): Capture {
    match c.binding.project(c.applied)
    case None => FailCapture(c, ProjectionFailed)
    case Some(client) =>
      match c.binding.finalize(client)
      case None => FailCapture(c, ProjectionFailed)
      case Some(checkpoint) => c.(result := Captured(client, checkpoint))
  }

  function CaptureNext(c: Capture, pull: Pull): (r: Pulled<Capture>)
    ensures r.pull == pull || r.pull == Fault(IdentityMismatch)
    ensures r.state.binding == c.binding
  {
    match pull
    case Fault(error) => Pulled(pull, if error == EndOfStream then c else FailCapture(c, error))
    case Got(event) =>
      if !IdentityMatches(c.binding, event) then Pulled(Fault(IdentityMismatch), FailCapture(c, IdentityMismatch))
      else
        var seen := c.(applied := c.applied + [event]);
        if !c.binding.folds(seen.applied) && c.result.Pending? then Pulled(pull, FailCapture(seen, FoldFailed))
        else if TerminalStatus(event).None? then Pulled(pull, seen)
        else if TerminalStatus(event).value != StatusCompleted then Pulled(pull, FailCapture(seen, NotCompleted))
        else if c.result.Pending? then Pulled(pull, Project(seen))
        else Pulled(pull, seen)
  }

  // --------------------------------------------------------------- the commit

  // Guarded by once: the store is asked at most once, and its answer stands.
  datatype Committer = Committer(done: bool, error: Option<Error>, puts: nat, store: Response -> bool)

  function Commit(k: Committer, response: Response): Committer {
    if k.done then k
    else k.(done := true, puts := k.puts + 1,
            error := if k.store(response) then None else Some(CommitFailed(StoreFailed)))
  }

  // ----------------------------------------------------------------- the gate

  datatype Gate = Gate(
    held: seq<Event>,
    pending: seq<Event>,
    terminal: Option<Error>,
    last: Option<Event>,
    response: string
  )

  // The converted, captured stream the gate pulls from.
  datatype Source = Source(terminal: Terminal, capture: Capture)

  function SourceNext(source: Source): (r: Pulled<Source>)
    ensures r.pull.Got? && (r.pull.event.kind == Finish || IsTerminal(r.pull.event)) ==>
              Left(r.state.terminal) < Left(source.terminal)
  {
    var up := TerminalNext(source.terminal);
    var captured := CaptureNext(source.capture, up.pull);
    Pulled(captured.pull, Source(up.state, captured.state))
  }

  datatype Pipeline = Pipeline(source: Source, gate: Gate, committer: Committer)

  const COMMIT_FAILURE_CODE := "internal"
  const COMMIT_FAILURE_MESSAGE :=
    "response finalization failed locally; partial output may have been delivered, continuation is unavailable, and retry may repeat provider work"

  function CommitFailureEvents(g: Gate, end: Event): seq<Event> {
    var base := if g.last.Some? then g.last.value else end;
    FailureEvents(base.(envelope := g.response, parent := ""), COMMIT_FAILURE_CODE, COMMIT_FAILURE_MESSAGE)
  }

  // Released events go out one per pull.
  function Release(p: Pipeline, events: seq<Event>): Pulled<Pipeline>
    requires events != []
  {
    Pulled(Got(events[0]), p.(gate := p.gate.(held := [], pending := events[1..], last := Some(events[0]))))
  }

  // What the gate does with a terminal event.
  function Settle(p: Pipeline, end: Event): Pulled<Pipeline>
    requires IsTerminal(end)
  {
    if TerminalStatus(end).value != StatusCompleted then Release(p, p.gate.held + [end])
    else
      match p.source.capture.result
      case Captured(_, checkpoint) =>
        var committed := p.(committer := Commit(p.committer, checkpoint));
        if committed.committer.error.Some? then
          Release(committed.(gate := p.gate.(terminal := committed.committer.error)), CommitFailureEvents(p.gate, end))
        else Release(committed, p.gate.held + [end])
      case CaptureFailed(error) => Pulled(Fault(CommitFailed(error)), p)
      case Pending => Pulled(Fault(CommitFailed(CaptureIncomplete)), p)
  }

  function GateNext(p: Pipeline): Pulled<Pipeline>
    decreases Left(p.source.terminal)
  {
    var g := p.gate;
    if g.pending != [] then
      Pulled(Got(g.pending[0]), p.(gate := g.(pending := g.pending[1..], last := Some(g.pending[0]))))
    else if g.terminal.Some? then Pulled(Fault(g.terminal.value), p)
    else
      var up := SourceNext(p.source);
      var q := p.(source := up.state);
      match up.pull
      case Fault(error) => Pulled(Fault(error), q)
      case Got(event) =>
        if event.kind == Finish then GateNext(q.(gate := g.(held := g.held + [event])))
        else if IsTerminal(event) then Settle(q, event)
        else
          var marked := if StartsResponse(event) then g.(response := event.envelope) else g;
          Pulled(Got(event), q.(gate := marked.(last := Some(event))))
  }

  function Opening(input: seq<Pull>, binding: Binding, store: Response -> bool): Pipeline {
    Pipeline(
      Source(Terminal(input, false, false, [], None, None), Capture(binding, [], Pending)),
      Gate([], [], None, None, ""),
      Committer(false, None, 0, store))
  }
}
