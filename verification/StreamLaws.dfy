// What the gated pipeline emits, for every upstream and every number of pulls.
module StreamLaws {
  import opened Wrappers
  import opened Streams

  datatype Drained = Drained(pulls: seq<Pull>, state: Pipeline)

  // The first n pulls.
  function Drain(p: Pipeline, n: nat): (d: Drained)
    ensures |d.pulls| == n
    decreases n
  {
    if n == 0 then Drained([], p)
    else
      var r := GateNext(p);
      var rest := Drain(r.state, n - 1);
      Drained([r.pull] + rest.pulls, rest.state)
  }

  // ------------------------------------------------- at most one, and only after

  function Terminals(events: seq<Event>): nat {
    if events == [] then 0 else (if IsTerminal(events[0]) then 1 else 0) + Terminals(events[1..])
  }

  function TerminalPulls(pulls: seq<Pull>): nat {
    if pulls == [] then 0
    else (if pulls[0].Got? && IsTerminal(pulls[0].event) then 1 else 0) + TerminalPulls(pulls[1..])
  }

  predicate CompletedEnd(event: Event) {
    TerminalStatus(event) == Some(StatusCompleted)
  }

  predicate Stored(k: Committer) {
    k.done && k.error.None?
  }

  // The response terminals that can still come out.
  function Prospects(p: Pipeline): nat {
    Terminals(p.gate.pending) + (if p.source.terminal.terminated then Terminals(p.source.terminal.pending) else 1)
  }

  predicate SourceInv(t: Terminal) {
    && (!t.terminated ==> t.pending == [])
    && (forall i :: 0 <= i < |t.pending| ==> !CompletedEnd(t.pending[i]) && t.pending[i].kind != Finish)
  }

  // Only finish events are held back, and a completed end is queued only once
  // the checkpoint is stored.
  predicate PipelineInv(p: Pipeline) {
    && SourceInv(p.source.terminal)
    && (forall i :: 0 <= i < |p.gate.held| ==> p.gate.held[i].kind == Finish)
    && (forall i :: 0 <= i < |p.gate.pending| && CompletedEnd(p.gate.pending[i]) ==> Stored(p.committer))
    && p.committer.puts == (if p.committer.done then 1 else 0)
  }

  lemma {:induction false} NoTerminals(events: seq<Event>)
    requires forall i :: 0 <= i < |events| ==> events[i].kind == Finish
    ensures Terminals(events) == 0
  {
    if events != [] {
      NoTerminals(events[1..]);
    }
  }

  lemma {:induction false} HeldThenEnd(held: seq<Event>, end: Event)
    requires forall i :: 0 <= i < |held| ==> held[i].kind == Finish
    requires IsTerminal(end)
    ensures Terminals(held + [end]) == 1
  {
    if held != [] {
      assert (held + [end])[1..] == held[1..] + [end];
      HeldThenEnd(held[1..], end);
    } else {
      assert held + [end] == [end];
      assert Terminals([end][1..]) == 0;
    }
  }

  // A pull from the source spends a prospect exactly when it is a terminal, and
  // only an event of the upstream itself is a completed end.
  lemma SourceSpends(t: Terminal)
    requires SourceInv(t)
    ensures var r := TerminalNext(t);
            && SourceInv(r.state)
            && (if r.state.terminated then Terminals(r.state.pending) else 1)
               + (if r.pull.Got? && IsTerminal(r.pull.event) then 1 else 0)
               <= (if t.terminated then Terminals(t.pending) else 1)
  {
    var r := TerminalNext(t);
    if t.pending == [] && !t.terminated && Upstream(t.input).pull.Fault? && Converts(t, Upstream(t.input).pull.error) {
      var code := FailureCode(Upstream(t.input).pull.error);
      var events := FailureEvents(t.last.value, code.0, code.1);
      assert r.state.pending == [events[1]];
      assert Terminals([events[1]][1..]) == 0;
    }
  }

  lemma ReleaseLaw(p: Pipeline, events: seq<Event>)
    requires events != [] && PipelineInv(p) && p.gate.pending == []
    requires forall i :: 0 <= i < |events| && CompletedEnd(events[i]) ==> Stored(p.committer)
    ensures var r := Release(p, events);
            && PipelineInv(r.state)
            && Prospects(r.state) + (if IsTerminal(events[0]) then 1 else 0) == Prospects(p) + Terminals(events)
            && r.pull == Got(events[0]) && r.state.committer == p.committer
  {
  }

  // What a pull may do: spend a prospect for a terminal, and show a completed
  // end only when the checkpoint is stored.
  predicate Lawful(p: Pipeline, r: Pulled<Pipeline>) {
    && PipelineInv(r.state)
    && Prospects(r.state) + (if r.pull.Got? && IsTerminal(r.pull.event) then 1 else 0) <= Prospects(p)
    && (r.pull.Got? && CompletedEnd(r.pull.event) ==> Stored(r.state.committer))
    && (Stored(p.committer) ==> Stored(r.state.committer))
  }

  lemma SettleLaw(p: Pipeline, end: Event)
    requires PipelineInv(p) && p.gate.pending == [] && IsTerminal(end)
    ensures var r := Settle(p, end);
            && PipelineInv(r.state)
            && Prospects(r.state) + (if r.pull.Got? && IsTerminal(r.pull.event) then 1 else 0) <= Prospects(p) + 1
            && (r.pull.Got? && CompletedEnd(r.pull.event) ==> Stored(r.state.committer))
            && (Stored(p.committer) ==> Stored(r.state.committer))
  {
    HeldThenEnd(p.gate.held, end);
    var result := p.source.capture.result;
    if TerminalStatus(end).value != StatusCompleted {
      ReleaseLaw(p, p.gate.held + [end]);
    } else if result.Captured? {
      var committed := p.(committer := Commit(p.committer, result.checkpoint));
      if committed.committer.error.Some? {
        var failed := committed.(gate := p.gate.(terminal := committed.committer.error));
        var events := CommitFailureEvents(p.gate, end);
        assert Terminals(events) == 1 by {
          assert events == [events[0], events[1]];
          assert events[1..] == [events[1]] && Terminals([events[1]][1..]) == 0;
        }
        ReleaseLaw(failed, events);
      } else {
        ReleaseLaw(committed, p.gate.held + [end]);
      }
    }
  }

  // Every pull of the gate is lawful.
  lemma {:induction false} GateLaw(p: Pipeline)
    requires PipelineInv(p)
    ensures Lawful(p, GateNext(p))
    decreases Left(p.source.terminal)
  {
    var g := p.gate;
    if g.pending == [] && g.terminal.None? {
      SourceSpends(p.source.terminal);
      var up := SourceNext(p.source);
      var q := p.(source := up.state);
      if up.pull.Got? && up.pull.event.kind == Finish {
        var next := q.(gate := g.(held := g.held + [up.pull.event]));
        GateLaw(next);
        assert GateNext(p) == GateNext(next);
      } else if up.pull.Got? && IsTerminal(up.pull.event) {
        SettleLaw(q, up.pull.event);
        assert GateNext(p) == Settle(q, up.pull.event);
      }
    }
  }

  lemma OpeningLaw(input: seq<Pull>, binding: Binding, store: Response -> bool)
    ensures PipelineInv(Opening(input, binding, store)) && Prospects(Opening(input, binding, store)) == 1
  {
  }

  lemma {:induction false} DrainLaw(p: Pipeline, n: nat)
    requires PipelineInv(p)
    ensures var d := Drain(p, n);
            && PipelineInv(d.state)
            && TerminalPulls(d.pulls) + Prospects(d.state) <= Prospects(p)
            && (Stored(p.committer) ==> Stored(d.state.committer))
            && (forall i :: 0 <= i < n && d.pulls[i].Got? && CompletedEnd(d.pulls[i].event) ==> Stored(d.state.committer))
    decreases n
  {
    if n > 0 {
      GateLaw(p);
      var r := GateNext(p);
      DrainLaw(r.state, n - 1);
      var rest := Drain(r.state, n - 1);
      var d := Drain(p, n);
      assert d.pulls[1..] == rest.pulls;
      assert d.state == rest.state;
    }
  }

  // For every upstream and however often it is pulled, the pipeline emits at
  // most one response terminal, asks the store at most once, and emits a
  // completed end only if the checkpoint was stored by then.
  lemma {:induction false} CompletionIsCommitted(input: seq<Pull>, binding: Binding, store: Response -> bool, n: nat)
    ensures var d := Drain(Opening(input, binding, store), n);
            && TerminalPulls(d.pulls) <= 1
            && d.state.committer.puts <= 1
            && forall i :: 0 <= i < n && d.pulls[i].Got? && CompletedEnd(d.pulls[i].event) ==>
                 Stored(Drain(Opening(input, binding, store), i + 1).state.committer)
  {
    var p := Opening(input, binding, store);
    OpeningLaw(input, binding, store);
    DrainLaw(p, n);
    forall i | 0 <= i < n && Drain(p, n).pulls[i].Got? && CompletedEnd(Drain(p, n).pulls[i].event)
      ensures Stored(Drain(p, i + 1).state.committer)
    {
      StoredByThen(p, i, n);
    }
  }

  lemma {:induction false} StoredByThen(p: Pipeline, i: nat, n: nat)
    requires PipelineInv(p) && i < n
    requires Drain(p, n).pulls[i].Got? && CompletedEnd(Drain(p, n).pulls[i].event)
    ensures Stored(Drain(p, i + 1).state.committer)
  {
    DrainLaw(p, i + 1);
    DrainPrefix(p, i + 1, n);
  }

  lemma {:induction false} DrainPrefix(p: Pipeline, k: nat, n: nat)
    requires k <= n
    ensures Drain(p, k).pulls == Drain(p, n).pulls[..k]
    decreases k
  {
    if k > 0 {
      DrainPrefix(GateNext(p).state, k - 1, n - 1);
    }
  }

  // --------------------------------------------------------- what comes out

  // The source yields exactly this and is then in that state.
  ghost predicate Feeds(source: Source, body: seq<Pull>, after: Source)
    decreases |body|
  {
    if body == [] then source == after
    else SourceNext(source).pull == body[0] && Feeds(SourceNext(source).state, body[1..], after)
  }

  predicate Unfinished(body: seq<Pull>) {
    forall i :: 0 <= i < |body| ==> !(body[i].Got? && IsTerminal(body[i].event))
  }

  predicate IsFinish(pull: Pull) {
    pull.Got? && pull.event.kind == Finish
  }

  // Everything but finish events, in order.
  function Visible(body: seq<Pull>): seq<Pull> {
    if body == [] then [] else (if IsFinish(body[0]) then [] else [body[0]]) + Visible(body[1..])
  }

  function Finishes(body: seq<Pull>): seq<Event> {
    if body == [] then [] else (if IsFinish(body[0]) then [body[0].event] else []) + Finishes(body[1..])
  }

  // The last event let through, and the response envelope opened, if any.
  function LastVisible(body: seq<Pull>, last: Option<Event>): Option<Event> {
    if body == [] then last
    else LastVisible(body[1..], if body[0].Got? && !IsFinish(body[0]) then Some(body[0].event) else last)
  }

  function OpenedIn(body: seq<Pull>, response: string): string {
    if body == [] then response
    else
      OpenedIn(body[1..], if body[0].Got? && StartsResponse(body[0].event) then body[0].event.envelope else response)
  }

  function Wrapped(events: seq<Event>): (pulls: seq<Pull>)
    ensures |pulls| == |events|
    ensures forall i :: 0 <= i < |events| ==> pulls[i] == Got(events[i])
  {
    seq(|events|, i requires 0 <= i < |events| => Got(events[i]))
  }

  // The gate when the end arrives: everything before it let through or held.
  function AtEnd(p: Pipeline, body: seq<Pull>, after: Source): Pipeline {
    p.(source := after,
       gate := Gate(p.gate.held + Finishes(body), [], None, LastVisible(body, p.gate.last), OpenedIn(body, p.gate.response)))
  }

  lemma {:induction false} DrainSplits(p: Pipeline, k: nat, n: nat)
    ensures Drain(p, k + n).pulls == Drain(p, k).pulls + Drain(Drain(p, k).state, n).pulls
    ensures Drain(p, k + n).state == Drain(Drain(p, k).state, n).state
    decreases k
  {
    if k > 0 {
      DrainSplits(GateNext(p).state, k - 1, n);
    }
  }

  // The same next pull makes the same drain.
  lemma DrainAgrees(p: Pipeline, q: Pipeline, n: nat)
    requires n > 0 && GateNext(p) == GateNext(q)
    ensures Drain(p, n) == Drain(q, n)
  {
  }

  lemma DrainMore(p: Pipeline, r: Pulled<Pipeline>, n: nat)
    requires r == GateNext(p)
    ensures Drain(p, n + 1).pulls == [r.pull] + Drain(r.state, n).pulls
    ensures Drain(p, n + 1).state == Drain(r.state, n).state
  {
  }

  lemma PassesThrough(p: Pipeline, pull: Pull, source: Source)
    requires p.gate.pending == [] && p.gate.terminal.None?
    requires SourceNext(p.source) == Pulled(pull, source)
    requires !IsFinish(pull) && !(pull.Got? && IsTerminal(pull.event))
    ensures GateNext(p) == Pulled(pull, p.(source := source, gate := p.gate.(
              last := if pull.Got? then Some(pull.event) else p.gate.last,
              response := if pull.Got? && StartsResponse(pull.event) then pull.event.envelope else p.gate.response)))
  {
  }

  lemma HoldsBack(p: Pipeline, pull: Pull, source: Source)
    requires p.gate.pending == [] && p.gate.terminal.None?
    requires SourceNext(p.source) == Pulled(pull, source) && IsFinish(pull)
    ensures GateNext(p)
         == GateNext(p.(source := source, gate := p.gate.(held := p.gate.held + [pull.event])))
  {
  }

  lemma SettlesEnd(p: Pipeline, end: Event, after: Source)
    requires p.gate.pending == [] && p.gate.terminal.None? && IsTerminal(end)
    requires SourceNext(p.source) == Pulled(Got(end), after)
    ensures GateNext(p) == Settle(AtEnd(p, [], after), end)
  {
    assert p.gate.held + Finishes([]) == p.gate.held;
  }

  // Up to the end the gate lets everything but finish events through, in order,
  // and holds the finish events; then it settles the end.
  lemma {:induction false} GateHoldsFinishes(p: Pipeline, body: seq<Pull>, end: Event, after: Source)
    requires p.gate.pending == [] && p.gate.terminal.None?
    requires Unfinished(body) && IsTerminal(end)
    requires Feeds(p.source, body + [Got(end)], after)
    ensures Drain(p, |Visible(body)|).pulls == Visible(body)
    ensures GateNext(Drain(p, |Visible(body)|).state) == Settle(AtEnd(p, body, after), end)
    decreases |body|
  {
    var feed := body + [Got(end)];
    if body == [] {
      assert feed[0] == Got(end) && feed[1..] == [];
      SettlesEnd(p, end, after);
    } else {
      assert feed[0] == body[0] && feed[1..] == body[1..] + [Got(end)];
      var source := SourceNext(p.source).state;
      if IsFinish(body[0]) {
        HoldsBack(p, body[0], source);
        FinishStep(p, p.(source := source, gate := p.gate.(held := p.gate.held + [body[0].event])), body, end, after);
      } else {
        PassesThrough(p, body[0], source);
        VisibleStep(p, GateNext(p), body, end, after);
      }
    }
  }

  lemma FinishRegroups(p: Pipeline, next: Pipeline, body: seq<Pull>, after: Source)
    requires body != [] && IsFinish(body[0])
    requires next.gate == p.gate.(held := p.gate.held + [body[0].event]) && next.committer == p.committer
    ensures AtEnd(next, body[1..], after) == AtEnd(p, body, after) && Visible(body) == Visible(body[1..])
  {
    FinishAppends(p.gate.held, body[0].event, Finishes(body[1..]));
    assert [] + Visible(body[1..]) == Visible(body[1..]);
  }

  lemma FinishAppends(held: seq<Event>, event: Event, rest: seq<Event>)
    ensures held + [event] + rest == held + ([event] + rest)
  {
  }

  lemma VisibleRegroups(p: Pipeline, next: Pipeline, body: seq<Pull>, after: Source)
    requires body != [] && !IsFinish(body[0])
    requires p.gate.pending == [] && p.gate.terminal.None?
    requires next.gate == p.gate.(
               last := if body[0].Got? then Some(body[0].event) else p.gate.last,
               response := if body[0].Got? && StartsResponse(body[0].event) then body[0].event.envelope
               else p.gate.response)
    requires next.committer == p.committer
    ensures AtEnd(next, body[1..], after) == AtEnd(p, body, after) && Visible(body) == [body[0]] + Visible(body[1..])
  {
    assert [] + Finishes(body[1..]) == Finishes(body[1..]);
  }

  lemma {:induction false} FinishStep(p: Pipeline, next: Pipeline, body: seq<Pull>, end: Event, after: Source)
    requires body != [] && Unfinished(body) && IsTerminal(end) && IsFinish(body[0])
    requires next.gate == p.gate.(held := p.gate.held + [body[0].event]) && next.committer == p.committer
    requires p.gate.pending == [] && p.gate.terminal.None?
    requires Feeds(next.source, body[1..] + [Got(end)], after)
    requires GateNext(p) == GateNext(next)
    ensures Drain(p, |Visible(body)|).pulls == Visible(body)
    ensures GateNext(Drain(p, |Visible(body)|).state) == Settle(AtEnd(p, body, after), end)
    decreases |body|, 0
  {
    GateHoldsFinishes(next, body[1..], end, after);
    FinishRegroups(p, next, body, after);
    if |Visible(body)| > 0 {
      DrainAgrees(p, next, |Visible(body)|);
    }
  }

  lemma {:induction false} VisibleStep(p: Pipeline, r: Pulled<Pipeline>, body: seq<Pull>, end: Event, after: Source)
    requires body != [] && Unfinished(body) && IsTerminal(end) && !IsFinish(body[0])
    requires r == GateNext(p) && r.pull == body[0]
    requires p.gate.pending == [] && p.gate.terminal.None? && r.state.committer == p.committer
    requires r.state.gate == p.gate.(
               last := if body[0].Got? then Some(body[0].event) else p.gate.last,
               response := if body[0].Got? && StartsResponse(body[0].event) then body[0].event.envelope
               else p.gate.response)
    requires Feeds(r.state.source, body[1..] + [Got(end)], after)
    ensures Drain(p, |Visible(body)|).pulls == Visible(body)
    ensures GateNext(Drain(p, |Visible(body)|).state) == Settle(AtEnd(p, body, after), end)
    decreases |body|, 0
  {
    GateHoldsFinishes(r.state, body[1..], end, after);
    VisibleRegroups(p, r.state, body, after);
    DrainMore(p, r, |Visible(body[1..])|);
  }

  // Queued events go out in order, whatever else the gate would do.
  lemma PendingGoOut(p: Pipeline, n: nat)
    requires n == |p.gate.pending|
    ensures Drain(p, n).pulls == Wrapped(p.gate.pending)
    ensures Drain(p, n).state.gate.pending == [] && Drain(p, n).state.gate.terminal == p.gate.terminal
    ensures Drain(p, n).state.source == p.source && Drain(p, n).state.committer == p.committer
  {
    PendingDrains(p, n, Drain(p, n));
  }

  // The pipeline once its queued events are out.
  function Emptied(p: Pipeline): Pipeline {
    if p.gate.pending == [] then p
    else p.(gate := p.gate.(pending := [], last := Some(p.gate.pending[|p.gate.pending| - 1])))
  }

  lemma {:induction false} PendingDrains(p: Pipeline, n: nat, d: Drained)
    requires n == |p.gate.pending| && d == Drain(p, n)
    ensures d == Drained(Wrapped(p.gate.pending), Emptied(p))
    decreases n
  {
    if n > 0 {
      var first, rest := p.gate.pending[0], p.gate.pending[1..];
      var q := p.(gate := p.gate.(pending := rest, last := Some(first)));
      PendingNext(p, first, rest, q);
      PendingDrains(q, n - 1, Drain(q, n - 1));
      DrainAs(p, Got(first), q, n - 1, Drained(Wrapped(rest), Emptied(q)));
      OneMoreOut(p, q, first, rest);
    }
  }

  lemma DrainAs(p: Pipeline, pull: Pull, q: Pipeline, n: nat, d: Drained)
    requires GateNext(p) == Pulled(pull, q) && Drain(q, n) == d
    ensures Drain(p, n + 1) == Drained([pull] + d.pulls, d.state)
  {
  }

  lemma OneMoreOut(p: Pipeline, q: Pipeline, first: Event, rest: seq<Event>)
    requires p.gate.pending == [first] + rest
    requires q == p.(gate := p.gate.(pending := rest, last := Some(first)))
    ensures [Got(first)] + Wrapped(rest) == Wrapped(p.gate.pending) && Emptied(q) == Emptied(p)
  {
  }

  lemma PendingNext(p: Pipeline, first: Event, rest: seq<Event>, q: Pipeline)
    requires p.gate.pending == [first] + rest
    requires q == p.(gate := p.gate.(pending := rest, last := Some(first)))
    ensures GateNext(p) == Pulled(Got(first), q)
  {
  }

  lemma ReleaseDrains(m: Pipeline, r: Pulled<Pipeline>, events: seq<Event>)
    requires events != [] && GateNext(m) == r
    requires r.pull == Got(events[0]) && r.state.gate.pending == events[1..]
    ensures Drain(m, |events|).pulls == Wrapped(events)
    ensures Drain(m, |events|).state.gate.pending == []
    ensures Drain(m, |events|).state.gate.terminal == r.state.gate.terminal
    ensures Drain(m, |events|).state.source == r.state.source && Drain(m, |events|).state.committer == r.state.committer
  {
    DrainMore(m, r, |events| - 1);
    PendingGoOut(r.state, |events| - 1);
    assert Wrapped(events) == [Got(events[0])] + Wrapped(events[1..]);
  }

  // Releasing events after some pulls emits them, in order, after those pulls.
  lemma ReleasedGoOut(p: Pipeline, out: seq<Pull>, q: Pipeline, events: seq<Event>)
    requires events != [] && Drain(p, |out|).pulls == out
    requires GateNext(Drain(p, |out|).state) == Release(q, events)
    ensures Drain(p, |out| + |events|).pulls == out + Wrapped(events)
    ensures var d := Drain(p, |out| + |events|).state.gate; d.pending == [] && d.terminal == q.gate.terminal
    ensures var d := Drain(p, |out| + |events|).state; d.source == q.source && d.committer == q.committer
  {
    DrainSplits(p, |out|, |events|);
    ReleaseDrains(Drain(p, |out|).state, Release(q, events), events);
  }

  // The response that would be committed when the end arrives.
  predicate Committable(p: Pipeline, after: Source) {
    !p.committer.done && after.capture.result.Captured?
  }

  // After asking the store: with its answer recorded, and with its refusal also
  // kept as the gate's own error.
  function Asked(q: Pipeline): Pipeline
    requires q.source.capture.result.Captured?
  {
    q.(committer := Commit(q.committer, q.source.capture.result.checkpoint))
  }

  function Unstored(q: Pipeline): Pipeline
    requires q.source.capture.result.Captured?
  {
    Asked(q).(gate := q.gate.(terminal := Some(CommitFailed(StoreFailed))))
  }

  lemma SettleStores(q: Pipeline, end: Event)
    requires CompletedEnd(end) && Committable(q, q.source)
    ensures Settle(q, end) ==
            if q.committer.store(q.source.capture.result.checkpoint) then Release(Asked(q), q.gate.held + [end])
            else Release(Unstored(q), CommitFailureEvents(q.gate, end))
  {
  }

  lemma {:induction false} EndStored(p: Pipeline, body: seq<Pull>, end: Event, after: Source)
    requires p.gate.pending == [] && p.gate.terminal.None? && p.gate.held == []
    requires Unfinished(body) && CompletedEnd(end) && Feeds(p.source, body + [Got(end)], after)
    requires Committable(p, after) && p.committer.store(after.capture.result.checkpoint)
    ensures Drain(p, |Visible(body)|).pulls == Visible(body)
    ensures GateNext(Drain(p, |Visible(body)|).state) == Release(Asked(AtEnd(p, body, after)), Finishes(body) + [end])
  {
    GateHoldsFinishes(p, body, end, after);
    SettleStores(AtEnd(p, body, after), end);
    assert p.gate.held + Finishes(body) == Finishes(body);
  }

  lemma {:induction false} EndUnstored(p: Pipeline, body: seq<Pull>, end: Event, after: Source)
    requires p.gate.pending == [] && p.gate.terminal.None?
    requires Unfinished(body) && CompletedEnd(end) && Feeds(p.source, body + [Got(end)], after)
    requires Committable(p, after) && !p.committer.store(after.capture.result.checkpoint)
    ensures Drain(p, |Visible(body)|).pulls == Visible(body)
    ensures GateNext(Drain(p, |Visible(body)|).state)
         == Release(Unstored(AtEnd(p, body, after)), CommitFailureEvents(AtEnd(p, body, after).gate, end))
  {
    GateHoldsFinishes(p, body, end, after);
    SettleStores(AtEnd(p, body, after), end);
  }

  // Released events after some pulls, then nothing but the end of the stream.
  lemma ReleasedThenEnded(p: Pipeline, out: seq<Pull>, q: Pipeline, events: seq<Event>, m: nat)
    requires events != [] && Drain(p, |out|).pulls == out
    requires GateNext(Drain(p, |out|).state) == Release(q, events)
    requires q.gate.terminal.None? && q.source.terminal.terminated && q.source.terminal.pending == []
    ensures Drain(p, |out| + |events| + m).pulls == out + Wrapped(events) + Repeated(Fault(EndOfStream), m)
    ensures Drain(p, |out| + |events| + m).state.committer == q.committer
  {
    ReleasedGoOut(p, out, q, events);
    EndsAfter(p, out + Wrapped(events), m);
  }

  lemma EndsAfter(p: Pipeline, out: seq<Pull>, m: nat)
    requires Drain(p, |out|).pulls == out
    requires Drain(p, |out|).state.gate.pending == [] && Drain(p, |out|).state.gate.terminal.None?
    requires Drain(p, |out|).state.source.terminal.terminated && Drain(p, |out|).state.source.terminal.pending == []
    ensures Drain(p, |out| + m).pulls == out + Repeated(Fault(EndOfStream), m)
    ensures Drain(p, |out| + m).state.committer == Drain(p, |out|).state.committer
  {
    DrainSplits(p, |out|, m);
    EndedForever(Drain(p, |out|).state, m);
  }

  // On success: the visible events in order, then the held finish events, then
  // the completed end, then only the end of the stream.
  lemma {:induction false} SuccessOutput(p: Pipeline, body: seq<Pull>, end: Event, after: Source, out: seq<Pull>,
                                         finish: seq<Event>, m: nat)
    requires p.gate.pending == [] && p.gate.terminal.None? && p.gate.held == [] && SourceInv(p.source.terminal)
    requires Unfinished(body) && CompletedEnd(end) && Feeds(p.source, body + [Got(end)], after)
    requires Committable(p, after) && p.committer.store(after.capture.result.checkpoint)
    requires out == Visible(body) && finish == Finishes(body) + [end]
    ensures Drain(p, |out| + |finish| + m).pulls == out + Wrapped(finish) + Repeated(Fault(EndOfStream), m)
    ensures Stored(Drain(p, |out| + |finish| + m).state.committer)
  {
    EndStored(p, body, end, after);
    FeedsToItsEnd(p.source, body, end, after);
    ReleasedThenEnded(p, out, Asked(AtEnd(p, body, after)), finish, m);
  }

  function Repeated(pull: Pull, n: nat): (pulls: seq<Pull>)
    ensures |pulls| == n
  {
    seq(n, _ => pull)
  }

  lemma {:induction false} FaultForever(p: Pipeline, error: Error, n: nat)
    requires p.gate.pending == [] && p.gate.terminal == Some(error)
    ensures Drain(p, n).pulls == Repeated(Fault(error), n)
    decreases n
  {
    if n > 0 {
      FaultForever(p, error, n - 1);
      DrainMore(p, GateNext(p), n - 1);
      assert Repeated(Fault(error), n) == [Fault(error)] + Repeated(Fault(error), n - 1);
    }
  }

  lemma FaultsAfter(p: Pipeline, out: seq<Pull>, error: Error, m: nat)
    requires Drain(p, |out|).pulls == out
    requires Drain(p, |out|).state.gate.pending == [] && Drain(p, |out|).state.gate.terminal == Some(error)
    ensures Drain(p, |out| + m).pulls == out + Repeated(Fault(error), m)
  {
    DrainSplits(p, |out|, m);
    FaultForever(Drain(p, |out|).state, error, m);
  }

  // On commit failure: the visible events in order, then one error and one
  // error end, then the commit error on every later pull. The finish events and
  // the completed end never appear.
  lemma {:induction false} CommitFailureOutput(p: Pipeline, body: seq<Pull>, end: Event, after: Source,
                                               out: seq<Pull>, failure: seq<Event>, m: nat)
    requires p.gate.pending == [] && p.gate.terminal.None?
    requires Unfinished(body) && CompletedEnd(end) && Feeds(p.source, body + [Got(end)], after)
    requires Committable(p, after) && !p.committer.store(after.capture.result.checkpoint)
    requires out == Visible(body) && failure == CommitFailureEvents(AtEnd(p, body, after).gate, end)
    ensures Drain(p, |out| + 2 + m).pulls
         == out + Wrapped(failure) + Repeated(Fault(CommitFailed(StoreFailed)), m)
  {
    EndUnstored(p, body, end, after);
    FailureGoesOut(p, out, Unstored(AtEnd(p, body, after)), failure, m);
  }

  lemma FailureGoesOut(p: Pipeline, out: seq<Pull>, q: Pipeline, failure: seq<Event>, m: nat)
    requires |failure| == 2 && q.gate.terminal == Some(CommitFailed(StoreFailed))
    requires Drain(p, |out|).pulls == out
    requires GateNext(Drain(p, |out|).state) == Release(q, failure)
    ensures Drain(p, |out| + 2 + m).pulls
         == out + Wrapped(failure) + Repeated(Fault(CommitFailed(StoreFailed)), m)
  {
    ReleasedGoOut(p, out, q, failure);
    FaultsAfter(p, out + Wrapped(failure), CommitFailed(StoreFailed), m);
  }

  // The failure is one error and one error end, of the exchange and numbered next
  // after the last event the client saw, in the response's own envelope.
  lemma CommitFailureShape(p: Pipeline, body: seq<Pull>, end: Event, after: Source)
    ensures var seen := if LastVisible(body, p.gate.last).Some? then LastVisible(body, p.gate.last).value else end;
            var envelope := OpenedIn(body, p.gate.response);
            CommitFailureEvents(AtEnd(p, body, after).gate, end) ==
            [Event(seen.exchange, seen.number + 1, ErrorKind, envelope, "",
                   ErrorPayload(COMMIT_FAILURE_CODE, COMMIT_FAILURE_MESSAGE), ""),
             Event(seen.exchange, seen.number + 2, EnvelopeEnd, envelope, "", EndPayload(true, StatusError), "")]
  {
  }

  // A response that ends in error is delivered as it came, held finish events
  // included, then only the end of the stream, and nothing is committed.
  lemma {:induction false} FailedResponseOutput(p: Pipeline, body: seq<Pull>, end: Event, after: Source, out: seq<Pull>,
                                                finish: seq<Event>, m: nat)
    requires p.gate.pending == [] && p.gate.terminal.None? && p.gate.held == []
    requires Unfinished(body) && IsTerminal(end) && !CompletedEnd(end) && Feeds(p.source, body + [Got(end)], after)
    requires after.terminal.terminated && after.terminal.pending == []
    requires out == Visible(body) && finish == Finishes(body) + [end]
    ensures Drain(p, |out| + |finish| + m).pulls == out + Wrapped(finish) + Repeated(Fault(EndOfStream), m)
    ensures Drain(p, |out| + |finish| + m).state.committer == p.committer
  {
    var q := AtEnd(p, body, after);
    assert q.gate.held == Finishes(body);
    GateHoldsFinishes(p, body, end, after);
    ReleasedThenEnded(p, out, q, finish, m);
  }

  // A source whose completed end came out has ended.
  lemma {:induction false} FeedsToItsEnd(source: Source, body: seq<Pull>, end: Event, after: Source)
    requires SourceInv(source.terminal) && CompletedEnd(end) && Feeds(source, body + [Got(end)], after)
    ensures after.terminal.terminated && after.terminal.pending == []
    decreases |body|
  {
    var feed := body + [Got(end)];
    SourceSpends(source.terminal);
    if body == [] {
      assert feed[0] == Got(end) && feed[1..] == [];
    } else {
      assert feed[1..] == body[1..] + [Got(end)];
      FeedsToItsEnd(SourceNext(source).state, body[1..], end, after);
    }
  }

  lemma {:induction false} EndedForever(p: Pipeline, m: nat)
    requires p.gate.pending == [] && p.gate.terminal.None?
    requires p.source.terminal.terminated && p.source.terminal.pending == []
    ensures Drain(p, m) == Drained(Repeated(Fault(EndOfStream), m), p)
    decreases m
  {
    if m > 0 {
      EndedForever(p, m - 1);
      assert GateNext(p) == Pulled(Fault(EndOfStream), p);
      DrainMore(p, GateNext(p), m - 1);
      assert Repeated(Fault(EndOfStream), m) == [Fault(EndOfStream)] + Repeated(Fault(EndOfStream), m - 1);
    }
  }

  // A completed end whose response could not be captured is withheld for good:
  // the pull that would have shown it fails, every later one finds the stream
  // ended, and nothing is committed.
  lemma {:induction false} UncapturedOutput(p: Pipeline, body: seq<Pull>, end: Event, after: Source, m: nat)
    requires p.gate.pending == [] && p.gate.terminal.None? && SourceInv(p.source.terminal)
    requires Unfinished(body) && CompletedEnd(end) && Feeds(p.source, body + [Got(end)], after)
    requires !after.capture.result.Captured?
    ensures Drain(p, |Visible(body)| + (m + 1)).pulls
         == Visible(body) + ([Fault(CommitFailed(WhyUncaptured(after.capture)))] + Repeated(Fault(EndOfStream), m))
    ensures Drain(p, |Visible(body)| + (m + 1)).state.committer == p.committer
  {
    FeedsToItsEnd(p.source, body, end, after);
    Withholds(p, body, end, after);
    AtEndIs(p, body, after);
    WithheldThenEnded(p, Visible(body), AtEnd(p, body, after), CommitFailed(WhyUncaptured(after.capture)), m);
  }

  lemma AtEndIs(p: Pipeline, body: seq<Pull>, after: Source)
    ensures var q := AtEnd(p, body, after);
            q.gate.pending == [] && q.gate.terminal.None? && q.source == after && q.committer == p.committer
  {
  }

  // One fault after some pulls, then nothing but the end of the stream.
  lemma {:induction false} WithheldThenEnded(p: Pipeline, out: seq<Pull>, q: Pipeline, error: Error, m: nat)
    requires Drain(p, |out|).pulls == out && GateNext(Drain(p, |out|).state) == Pulled(Fault(error), q)
    requires q.gate.pending == [] && q.gate.terminal.None?
    requires q.source.terminal.terminated && q.source.terminal.pending == []
    ensures Drain(p, |out| + (m + 1)).pulls == out + ([Fault(error)] + Repeated(Fault(EndOfStream), m))
    ensures Drain(p, |out| + (m + 1)).state.committer == q.committer
  {
    DrainSplits(p, |out|, m + 1);
    FaultThenEnded(Drain(p, |out|).state, q, error, m);
  }

  function WhyUncaptured(capture: Capture): Error {
    if capture.result.CaptureFailed? then capture.result.error else CaptureIncomplete
  }

  lemma {:induction false} Withholds(p: Pipeline, body: seq<Pull>, end: Event, after: Source)
    requires p.gate.pending == [] && p.gate.terminal.None?
    requires Unfinished(body) && CompletedEnd(end) && Feeds(p.source, body + [Got(end)], after)
    requires !after.capture.result.Captured?
    ensures Drain(p, |Visible(body)|).pulls == Visible(body)
    ensures GateNext(Drain(p, |Visible(body)|).state)
         == Pulled(Fault(CommitFailed(WhyUncaptured(after.capture))), AtEnd(p, body, after))
  {
    GateHoldsFinishes(p, body, end, after);
  }

  lemma FaultThenEnded(s: Pipeline, q: Pipeline, error: Error, m: nat)
    requires GateNext(s) == Pulled(Fault(error), q)
    requires q.gate.pending == [] && q.gate.terminal.None?
    requires q.source.terminal.terminated && q.source.terminal.pending == []
    ensures Drain(s, m + 1) == Drained([Fault(error)] + Repeated(Fault(EndOfStream), m), q)
  {
    DrainMore(s, GateNext(s), m);
    EndedForever(q, m);
  }
}
