// The target backoff ledger (internal/exchange/target_backoff.go) with the
// retry hint it honours (internal/provider/failure.go).
//
// Calls to one target generation are admitted in order and complete in any
// order. The ledger's behaviour is pointwise in the target generation, so the
// laws are stated for one generation's cell and the class below is proved to
// move every cell by the cell's own step.
module Backoff {
  import opened Wrappers

  // Nanoseconds; ZERO is Go's zero instant, before every clock reading.
  type Time = int
  const ZERO: Time := 0
  const SECOND: int := 1_000_000_000
  const INITIAL_BACKOFF: int := SECOND
  const MAXIMUM_BACKOFF: int := 15 * 60 * SECOND
  const STALE: int := MAXIMUM_BACKOFF
  const MAX_INT64: int := 0x7FFF_FFFF_FFFF_FFFF

  datatype Key = Key(workspace: string, target: string, version: nat)

  datatype Severity = NoClass | Transport | Unavailable | Incompatible

  function Rank(severity: Severity): nat {
    match severity
    case NoClass => 0
    case Transport => 1
    case Unavailable => 2
    case Incompatible => 3
  }

  datatype Record = Record(delay: int, until: Time, severity: Severity)

  const NO_RECORD := Record(0, ZERO, NoClass)

  // What one target generation's calls have taught so far.
  datatype Entry = Entry(
    nextSequence: nat,
    latestReachable: nat,
    latestIngress: nat,
    latestSuppression: nat,
    epoch: nat,
    inFlight: nat
  )

  const NO_ENTRY := Entry(0, 0, 0, 0, 0, 0)

  datatype Observation = Observation(key: Key, sequence: nat, epoch: nat, suppressed: bool)

  datatype RetryAfter = NoHint | Malformed | Seconds(count: nat) | Date(at: Time)

  // What can be found in the chain of a failed call's cause.
  datatype Cause = Cause(
    unavailable: bool,
    rejected: bool,
    targetUnavailable: bool,
    targetIncompatible: bool,
    retryAfter: RetryAfter
  )

  datatype Event = Ingress | CallFailed(cause: Cause) | OtherEvent

  function Max(a: nat, b: nat): nat {
    if a < b then b else a
  }

  // ---------------------------------------------------------------- the delay

  function NextBackoff(current: int): int {
    if current <= 0 then INITIAL_BACKOFF
    else if current >= MAXIMUM_BACKOFF / 2 then MAXIMUM_BACKOFF
    else current * 2
  }

  function Pow2(k: nat): nat {
    if k == 0 then 1 else 2 * Pow2(k - 1)
  }

  // The delay after k escalations: nothing, then one second doubling up to
  // fifteen minutes.
  function DelayAfter(k: nat): int {
    if k == 0 then 0
    else if Pow2(k - 1) * SECOND <= MAXIMUM_BACKOFF then Pow2(k - 1) * SECOND
    else MAXIMUM_BACKOFF
  }

  lemma NextBackoffFollows(k: nat)
    ensures NextBackoff(DelayAfter(k)) == DelayAfter(k + 1)
  {
    if k >= 11 {
      Pow2Grows(10, k - 1);
      Pow2Grows(10, k);
      assert Pow2(10) == 1024;
    } else {
      assert Pow2(0) == 1 && Pow2(1) == 2 && Pow2(2) == 4 && Pow2(3) == 8 && Pow2(4) == 16;
      assert Pow2(5) == 32 && Pow2(6) == 64 && Pow2(7) == 128 && Pow2(8) == 256 && Pow2(9) == 512 && Pow2(10) == 1024;
    }
  }

  lemma {:induction false} Pow2Grows(a: nat, b: nat)
    requires a <= b
    ensures Pow2(a) <= Pow2(b)
    decreases b - a
  {
    if a < b {
      Pow2Grows(a, b - 1);
    }
  }

  // The retry hint, when present, well formed and not past.
  function RetryNotBefore(cause: Cause, now: Time): Option<Time> {
    match cause.retryAfter
    case NoHint => None
    case Malformed => None
    case Seconds(count) => if count > MAX_INT64 / SECOND then None else Some(now + count * SECOND)
    case Date(at) => if at > now then Some(at) else None
  }

  // A hint is admitted exactly when it is a number of seconds whose nanoseconds
  // fit a signed 64-bit duration, or a date yet to come; it then means that long
  // from now, or that date, and is never past.
  lemma HintAdmittedExactlyWhen(cause: Cause, now: Time)
    ensures RetryNotBefore(cause, now).Some? <==>
            || (cause.retryAfter.Seconds? && cause.retryAfter.count * 1_000_000_000 <= 9_223_372_036_854_775_807)
            || (cause.retryAfter.Date? && now < cause.retryAfter.at)
    ensures RetryNotBefore(cause, now).Some? ==>
              var hint := RetryNotBefore(cause, now).value;
              && now <= hint
              && (cause.retryAfter.Seconds? ==> hint - now == cause.retryAfter.count * 1_000_000_000)
              && (cause.retryAfter.Date? ==> hint == cause.retryAfter.at)
  {
  }

  // ------------------------------------------------------------------ one slot

  // Ledger state of one target generation.
  datatype Slot = Slot(record: Option<Record>, entry: Option<Entry>)

  function RecordOr(record: Option<Record>): Record {
    if record.Some? then record.value else NO_RECORD
  }

  function EntryOr(entry: Option<Entry>): Entry {
    if entry.Some? then entry.value else NO_ENTRY
  }

  predicate Stale(record: Option<Record>, now: Time) {
    record.Some? && now >= record.value.until + STALE
  }

  function CleanRecord(record: Option<Record>, now: Time): Option<Record> {
    if Stale(record, now) then None else record
  }

  function CleanSlot(slot: Slot, now: Time): Slot {
    if Stale(slot.record, now) then Slot(None, if EntryOr(slot.entry).inFlight == 0 then None else slot.entry)
    else slot
  }

  function AdmitSlot(slot: Slot, now: Time): Slot {
    var clean := CleanSlot(slot, now);
    var entry := EntryOr(clean.entry);
    clean.(entry := Some(entry.(nextSequence := entry.nextSequence + 1, inFlight := entry.inFlight + 1)))
  }

  function AdmittedAs(key: Key, slot: Slot, now: Time): Observation {
    var admitted := AdmitSlot(slot, now);
    Observation(key, admitted.entry.value.nextSequence, admitted.entry.value.epoch,
                now < RecordOr(admitted.record).until)
  }

  // The call saw the current epoch and was not sent while suppressed.
  predicate Fresh(entry: Entry, observation: Observation) {
    observation.epoch == entry.epoch && !observation.suppressed
  }

  datatype Judged = Judged(record: Option<Record>, entry: Entry)

  function JudgeIngress(record: Option<Record>, entry: Entry, observation: Observation): Judged {
    var seen := entry.(
      latestReachable := Max(entry.latestReachable, observation.sequence),
      latestIngress := Max(entry.latestIngress, observation.sequence));
    Judged(if observation.sequence > entry.latestSuppression then None else record, seen)
  }

  function JudgeTransport(record: Option<Record>, entry: Entry, observation: Observation, cause: Cause, now: Time): Judged {
    if observation.sequence <= entry.latestReachable then Judged(record, entry)
    else
      var noted := entry.(latestSuppression := Max(entry.latestSuppression, observation.sequence));
      var base := RecordOr(record);
      var labelled := if base.severity == NoClass then base.(severity := Transport) else base;
      var current := Fresh(entry, observation);
      var delay := if current then NextBackoff(labelled.delay) else labelled.delay;
      var deadline := if current then now + delay else labelled.until;
      var hint := RetryNotBefore(cause, now);
      var until := if hint.Some? && hint.value > deadline then hint.value else deadline;
      Judged(
        if until == ZERO then record else Some(Record(delay, until, labelled.severity)),
        if current then noted.(epoch := noted.epoch + 1) else noted)
  }

  function JudgeTargetRejection(record: Option<Record>, entry: Entry, observation: Observation, cause: Cause, now: Time)
    : Judged
  {
    var seen := entry.(latestReachable := Max(entry.latestReachable, observation.sequence));
    var base := RecordOr(record);
    if observation.sequence <= entry.latestIngress || observation.sequence <= entry.latestSuppression then
      Judged(
        if cause.targetIncompatible && base.severity != NoClass && Rank(base.severity) < Rank(Incompatible)
        then Some(base.(severity := Incompatible)) else record,
        seen)
    else
      var noted := seen.(latestSuppression := observation.sequence);
      var severity := if cause.targetIncompatible || base.severity == Incompatible then Incompatible else Unavailable;
      if Fresh(entry, observation) then
        var delay := NextBackoff(base.delay);
        Judged(Some(Record(delay, now + delay, severity)), noted.(epoch := noted.epoch + 1))
      else Judged(Some(base.(severity := severity)), noted)
  }

  function JudgeRejection(record: Option<Record>, entry: Entry, observation: Observation, cause: Cause, now: Time): Judged {
    if cause.targetUnavailable || cause.targetIncompatible then
      JudgeTargetRejection(record, entry, observation, cause, now)
    else
      var seen := entry.(latestReachable := Max(entry.latestReachable, observation.sequence));
      Judged(
        if RecordOr(record).severity == Transport && observation.sequence > entry.latestSuppression then None else record,
        seen)
  }

  function Judge(record: Option<Record>, entry: Entry, observation: Observation, event: Event, now: Time): Judged {
    match event
    case Ingress => JudgeIngress(record, entry, observation)
    case CallFailed(cause) =>
      if cause.unavailable then JudgeTransport(record, entry, observation, cause, now)
      else if cause.rejected then JudgeRejection(record, entry, observation, cause, now)
      else Judged(record, entry)
    case OtherEvent => Judged(record, entry)
  }

  function Finish(judged: Judged): Slot {
    if judged.entry.inFlight == 0 && judged.record.None? then Slot(None, None)
    else Slot(judged.record, Some(judged.entry))
  }

  function Landed(entry: Entry): Entry {
    if entry.inFlight > 0 then entry.(inFlight := entry.inFlight - 1) else entry
  }

  function ObserveSlot(slot: Slot, observation: Observation, event: Event, now: Time): Slot {
    if slot.entry.None? then slot
    else Finish(Judge(CleanRecord(slot.record, now), Landed(slot.entry.value), observation, event, now))
  }

  // ------------------------------------------------------------------ one cell

  // One target generation together with what is true of it but not stored: the
  // calls admitted and not yet observed, and the epoch at which the present
  // record appeared.
  datatype Cell = Cell(key: Key, slot: Slot, outstanding: set<Observation>, born: nat)

  datatype Step =
    | Admit(now: Time)
    | Settle(observation: Observation, event: Event, now: Time)
    | Pass(now: Time)

  function Empty(key: Key): Cell {
    Cell(key, Slot(None, None), {}, 0)
  }

  // Steps that can happen: only outstanding calls complete.
  predicate Possible(cell: Cell, step: Step) {
    step.now > ZERO && (step.Settle? ==> step.observation in cell.outstanding)
  }

  // The epoch the record of the next slot counts its escalations from.
  function BornAfter(before: Option<Record>, after: Option<Record>, born: nat, epoch: nat): nat {
    if before.None? && after.Some? then epoch else born
  }

  function Move(cell: Cell, step: Step): Cell {
    match step
    case Pass(now) => cell.(slot := CleanSlot(cell.slot, now))
    case Admit(now) =>
      cell.(slot := AdmitSlot(cell.slot, now),
            outstanding := cell.outstanding + {AdmittedAs(cell.key, cell.slot, now)})
    case Settle(observation, event, now) =>
      var after := ObserveSlot(cell.slot, observation, event, now);
      cell.(slot := after,
            outstanding := cell.outstanding - {observation},
            born := BornAfter(CleanRecord(cell.slot.record, now), after.record, cell.born, EntryOr(cell.slot.entry).epoch))
  }

  // ------------------------------------------------------------ the invariant

  // Sequence numbers are ordered, distinct among outstanding calls, and never
  // the number of a call already judged.
  predicate Numbered(entry: Entry, outstanding: set<Observation>) {
    && entry.latestIngress <= entry.latestReachable <= entry.nextSequence
    && entry.latestSuppression <= entry.nextSequence
    && (forall o :: o in outstanding ==>
          && 1 <= o.sequence <= entry.nextSequence
          && o.epoch <= entry.epoch
          && o.sequence != entry.latestSuppression
          && o.sequence != entry.latestReachable
          && o.sequence != entry.latestIngress)
    && (forall o, p :: o in outstanding && p in outstanding && o.sequence == p.sequence ==> o == p)
  }

  // A live suppression is justified by evidence later than every success, and
  // its delay counts the escalations since it appeared.
  predicate Justified(record: Record, entry: Entry, born: nat) {
    && entry.latestSuppression > entry.latestIngress
    && record.severity != NoClass
    && born <= entry.epoch
    && record.delay == DelayAfter(entry.epoch - born)
  }

  predicate CellInv(cell: Cell) {
    && (cell.slot.entry.Some? <==> cell.slot.record.Some? || cell.outstanding != {})
    && (forall o :: o in cell.outstanding ==> o.key == cell.key)
    && (cell.slot.entry.Some? ==>
          && cell.slot.entry.value.inFlight == |cell.outstanding|
          && Numbered(cell.slot.entry.value, cell.outstanding))
    && (cell.slot.record.Some? ==> Justified(cell.slot.record.value, cell.slot.entry.value, cell.born))
  }

  lemma PassKeeps(cell: Cell, now: Time)
    requires CellInv(cell)
    ensures CellInv(Move(cell, Pass(now)))
  {
    assert cell.slot.entry.Some? && cell.slot.entry.value.inFlight == 0 ==> cell.outstanding == {};
  }

  // A call entered into a clean cell.
  lemma EnteredIsInv(clean: Cell, entry: Entry, o: Observation, next: Cell)
    requires CellInv(clean) && entry == EntryOr(clean.slot.entry)
    requires o.key == clean.key && o.sequence == entry.nextSequence + 1 && o.epoch == entry.epoch
    requires next.key == clean.key && next.born == clean.born && next.outstanding == clean.outstanding + {o}
    requires next.slot == clean.slot.(entry := Some(entry.(nextSequence := entry.nextSequence + 1,
                                                           inFlight := entry.inFlight + 1)))
    ensures CellInv(next) && o !in clean.outstanding
  {
    NumberedWith(entry, clean.outstanding, o, next.slot.entry.value);
    assert |clean.outstanding + {o}| == |clean.outstanding| + 1;
  }

  lemma NumberedWith(entry: Entry, outstanding: set<Observation>, o: Observation, next: Entry)
    requires Numbered(entry, outstanding)
    requires o.sequence == entry.nextSequence + 1 && o.epoch == entry.epoch
    requires next == entry.(nextSequence := entry.nextSequence + 1, inFlight := entry.inFlight + 1)
    ensures Numbered(next, outstanding + {o}) && o !in outstanding
  {
    assert forall p :: p in outstanding ==> p.sequence < o.sequence;
  }

  lemma AdmitKeeps(cell: Cell, now: Time)
    requires CellInv(cell)
    ensures CellInv(Move(cell, Admit(now)))
    ensures AdmittedAs(cell.key, cell.slot, now) !in cell.outstanding
  {
    PassKeeps(cell, now);
    var clean := Move(cell, Pass(now));
    EnteredIsInv(clean, EntryOr(clean.slot.entry), AdmittedAs(cell.key, cell.slot, now), Move(cell, Admit(now)));
  }

  predicate Keeps(record: Option<Record>, entry: Entry, judged: Judged, rest: set<Observation>, born: nat) {
    && Numbered(judged.entry, rest)
    && judged.entry.inFlight == entry.inFlight
    && (judged.record.Some? ==>
          Justified(judged.record.value, judged.entry, BornAfter(record, judged.record, born, entry.epoch)))
  }

  // The call being judged, the calls still out, and a justified record.
  predicate Judgeable(record: Option<Record>, entry: Entry, o: Observation, rest: set<Observation>, born: nat) {
    && Numbered(entry, rest)
    && 1 <= o.sequence <= entry.nextSequence && o.epoch <= entry.epoch
    && o.sequence != entry.latestSuppression
    && (forall p :: p in rest ==> p.sequence != o.sequence)
    && (record.Some? ==> Justified(record.value, entry, born))
  }

  // A step of the delay from wherever the record stands, or from nothing.
  lemma EscalationFollows(record: Option<Record>, entry: Entry, born: nat)
    requires record.Some? ==> Justified(record.value, entry, born)
    ensures var start := if record.Some? then born else entry.epoch;
            && RecordOr(record).delay == DelayAfter(entry.epoch - start)
            && NextBackoff(RecordOr(record).delay) == DelayAfter(entry.epoch + 1 - start)
  {
    NextBackoffFollows(entry.epoch - (if record.Some? then born else entry.epoch));
  }

  lemma TransportKeeps(
    record: Option<Record>, entry: Entry, o: Observation, cause: Cause, now: Time, rest: set<Observation>, born: nat)
    requires Judgeable(record, entry, o, rest, born) && now > ZERO
    ensures Keeps(record, entry, JudgeTransport(record, entry, o, cause, now), rest, born)
  {
    EscalationFollows(record, entry, born);
  }

  lemma TargetRejectionKeeps(
    record: Option<Record>, entry: Entry, o: Observation, cause: Cause, now: Time, rest: set<Observation>, born: nat)
    requires Judgeable(record, entry, o, rest, born)
    ensures Keeps(record, entry, JudgeTargetRejection(record, entry, o, cause, now), rest, born)
  {
    EscalationFollows(record, entry, born);
  }

  lemma IngressKeeps(record: Option<Record>, entry: Entry, o: Observation, rest: set<Observation>, born: nat)
    requires Judgeable(record, entry, o, rest, born)
    ensures Keeps(record, entry, JudgeIngress(record, entry, o), rest, born)
  {
  }

  // Judging an outstanding call keeps numbers and justification.
  lemma JudgeKeeps(
    record: Option<Record>, entry: Entry, o: Observation, event: Event, now: Time, rest: set<Observation>, born: nat)
    requires Judgeable(record, entry, o, rest, born) && now > ZERO
    ensures Keeps(record, entry, Judge(record, entry, o, event, now), rest, born)
  {
    match event
    case Ingress => IngressKeeps(record, entry, o, rest, born);
    case CallFailed(cause) =>
      if cause.unavailable {
        TransportKeeps(record, entry, o, cause, now, rest, born);
      } else if cause.rejected && (cause.targetUnavailable || cause.targetIncompatible) {
        TargetRejectionKeeps(record, entry, o, cause, now, rest, born);
      }
    case OtherEvent =>
  }

  // What judging leaves, put back into the cell.
  lemma JudgedIsInv(cell: Cell, record: Option<Record>, entry: Entry, judged: Judged, rest: set<Observation>, next: Cell)
    requires Keeps(record, entry, judged, rest, cell.born) && entry.inFlight == |rest|
    requires forall o :: o in rest ==> o.key == cell.key
    requires next == Cell(cell.key, Finish(judged), rest, BornAfter(record, judged.record, cell.born, entry.epoch))
    ensures CellInv(next)
  {
    assert rest == {} <==> |rest| == 0;
  }

  // The call landing is judged against the calls still out.
  lemma LandingIsJudgeable(cell: Cell, o: Observation, now: Time, rest: set<Observation>)
    requires CellInv(cell) && o in cell.outstanding && rest == cell.outstanding - {o}
    ensures cell.slot.entry.Some?
    ensures var entry := Landed(cell.slot.entry.value);
            && Judgeable(CleanRecord(cell.slot.record, now), entry, o, rest, cell.born)
            && entry.inFlight == |rest| && entry.epoch == cell.slot.entry.value.epoch
  {
    assert rest + {o} == cell.outstanding;
    assert |rest| == |cell.outstanding| - 1;
  }

  lemma SettleKeeps(cell: Cell, o: Observation, event: Event, now: Time)
    requires CellInv(cell) && o in cell.outstanding && now > ZERO
    ensures CellInv(Move(cell, Settle(o, event, now)))
  {
    var rest := cell.outstanding - {o};
    LandingIsJudgeable(cell, o, now, rest);
    var record, entry := CleanRecord(cell.slot.record, now), Landed(cell.slot.entry.value);
    JudgeKeeps(record, entry, o, event, now, rest, cell.born);
    JudgedIsInv(cell, record, entry, Judge(record, entry, o, event, now), rest, Move(cell, Settle(o, event, now)));
  }

  // Every possible step keeps the invariant.
  lemma MoveKeeps(cell: Cell, step: Step)
    requires CellInv(cell) && Possible(cell, step)
    ensures CellInv(Move(cell, step))
  {
    match step
    case Pass(now) => PassKeeps(cell, now);
    case Admit(now) => AdmitKeeps(cell, now);
    case Settle(o, event, now) => SettleKeeps(cell, o, event, now);
  }

  // ---------------------------------------------------------------- whole runs

  ghost predicate Runs(cells: seq<Cell>, steps: seq<Step>) {
    && |cells| == |steps| + 1
    && forall i :: 0 <= i < |steps| ==> Possible(cells[i], steps[i]) && cells[i + 1] == Move(cells[i], steps[i])
  }

  // Under any interleaving of admissions, completions and clean-ups the
  // invariant holds: suppressions are justified, the in-flight count is the
  // number of outstanding calls, and an entry exists exactly while it is needed.
  lemma {:induction false} EveryRunIsSound(cells: seq<Cell>, steps: seq<Step>, i: nat)
    requires Runs(cells, steps) && CellInv(cells[0]) && i < |cells|
    ensures CellInv(cells[i])
  {
    if i > 0 {
      EveryRunIsSound(cells, steps, i - 1);
      MoveKeeps(cells[i - 1], steps[i - 1]);
    }
  }

  // While one call stays outstanding its entry survives, and everything the
  // entry has learnt only grows.
  predicate Grew(a: Entry, b: Entry) {
    && a.nextSequence <= b.nextSequence
    && a.latestReachable <= b.latestReachable
    && a.latestIngress <= b.latestIngress
    && a.latestSuppression <= b.latestSuppression
    && a.epoch <= b.epoch
  }

  lemma JudgeGrows(record: Option<Record>, entry: Entry, o: Observation, event: Event, now: Time)
    ensures Grew(entry, Judge(record, entry, o, event, now).entry)
    ensures Judge(record, entry, o, event, now).entry.inFlight == entry.inFlight
  {
  }

  lemma MoveGrows(cell: Cell, step: Step, o: Observation)
    requires CellInv(cell) && Possible(cell, step)
    requires o in cell.outstanding && o in Move(cell, step).outstanding
    ensures cell.slot.entry.Some? && Move(cell, step).slot.entry.Some?
    ensures Grew(cell.slot.entry.value, Move(cell, step).slot.entry.value)
  {
    var entry := cell.slot.entry.value;
    assert entry.inFlight > 0 by {
      assert cell.outstanding != {};
    }
    if step.Settle? {
      assert {o, step.observation} <= cell.outstanding && |cell.outstanding - {step.observation}| > 0 by {
        assert o in cell.outstanding - {step.observation};
      }
      assert entry.inFlight > 1;
      JudgeGrows(CleanRecord(cell.slot.record, step.now), Landed(entry), step.observation, step.event, step.now);
    }
  }

  // The call stays outstanding from the first cell to the last.
  ghost predicate Held(cells: seq<Cell>, o: Observation) {
    forall i :: 0 <= i < |cells| ==> o in cells[i].outstanding
  }

  lemma {:induction false} HeldGrows(cells: seq<Cell>, steps: seq<Step>, o: Observation, i: nat)
    requires Runs(cells, steps) && CellInv(cells[0]) && Held(cells, o) && i < |cells|
    ensures cells[0].slot.entry.Some? && cells[i].slot.entry.Some?
    ensures Grew(cells[0].slot.entry.value, cells[i].slot.entry.value)
  {
    assert o in cells[0].outstanding && o in cells[i].outstanding;
    if i > 0 {
      HeldGrows(cells, steps, o, i - 1);
      EveryRunIsSound(cells, steps, i - 1);
      assert o in cells[i - 1].outstanding;
      MoveGrows(cells[i - 1], steps[i - 1], o);
    }
  }

  // The event shows the target was reached: it answered, or it rejected.
  predicate Reached(event: Event) {
    event.Ingress? || (event.CallFailed? && !event.cause.unavailable && event.cause.rejected)
  }

  predicate TransportFailed(event: Event) {
    event.CallFailed? && event.cause.unavailable
  }

  lemma ReachingRaises(cell: Cell, step: Step, o: Observation)
    requires CellInv(cell) && Possible(cell, step) && step.Settle? && Reached(step.event)
    requires o in Move(cell, step).outstanding
    ensures Move(cell, step).slot.entry.Some?
    ensures Move(cell, step).slot.entry.value.latestReachable >= step.observation.sequence
  {
    MoveGrows(cell, step, o);
  }

  // A transport failure of a call admitted no later than some completed call
  // that reached the target changes neither record nor epoch, however much
  // happens in between.
  lemma StaleFailureIsIgnored(
    before: Cell, reached: Step, cells: seq<Cell>, steps: seq<Step>, failure: Step)
    requires CellInv(before) && Possible(before, reached) && reached.Settle? && Reached(reached.event)
    requires cells != [] && cells[0] == Move(before, reached) && Runs(cells, steps)
    requires failure.Settle? && TransportFailed(failure.event) && failure.now > ZERO
    requires failure.observation.sequence <= reached.observation.sequence
    requires failure.observation in before.outstanding && Held(cells, failure.observation)
    ensures var last := cells[|steps|];
            var after := Move(last, failure);
            && last.slot.entry.Some?
            && after.slot.record == CleanRecord(last.slot.record, failure.now)
            && (after.slot.entry.Some? ==> after.slot.entry.value.epoch == last.slot.entry.value.epoch)
  {
    MoveKeeps(before, reached);
    var last := cells[|steps|];
    EveryRunIsSound(cells, steps, |steps|);
    HeldGrows(cells, steps, failure.observation, |steps|);
    assert failure.observation in cells[0].outstanding;
    ReachingRaises(before, reached, failure.observation);
  }

  // The record survived the step, clean-up aside.
  predicate Unchanged(last: Cell, step: Step) {
    Move(last, step).slot.record == CleanRecord(last.slot.record, step.now)
  }

  // A success admitted before the latest suppression never clears it.
  lemma EarlierSuccessClearsNothing(cells: seq<Cell>, steps: seq<Step>, success: Step)
    requires cells != [] && CellInv(cells[0]) && Runs(cells, steps)
    requires success.Settle? && success.event.Ingress? && success.now > ZERO
    requires Held(cells, success.observation)
    requires cells[0].slot.entry.Some? && success.observation.sequence < cells[0].slot.entry.value.latestSuppression
    ensures Unchanged(cells[|steps|], success)
  {
    EveryRunIsSound(cells, steps, |steps|);
    HeldGrows(cells, steps, success.observation, |steps|);
    assert success.observation in cells[|steps|].outstanding;
  }

  // A record of a target judged unavailable or incompatible leaves, stale
  // clean-up aside, only when a call admitted after the latest suppression
  // answers; and severity never falls.
  lemma StrongRecordsYieldOnlyToIngress(cell: Cell, step: Step)
    requires CellInv(cell) && Possible(cell, step)
    requires cell.slot.record.Some? && !Stale(cell.slot.record, step.now)
    requires Rank(cell.slot.record.value.severity) >= Rank(Unavailable)
    ensures Move(cell, step).slot.record.None? <==>
            && step.Settle? && step.event.Ingress?
            && step.observation.sequence > cell.slot.entry.value.latestSuppression
    ensures Move(cell, step).slot.record.Some? ==>
              Rank(Move(cell, step).slot.record.value.severity) >= Rank(cell.slot.record.value.severity)
  {
  }

  // The step lengthened the delay.
  predicate Escalates(cell: Cell, step: Step) {
    && step.Settle?
    && cell.slot.entry.Some?
    && Judge(CleanRecord(cell.slot.record, step.now), Landed(cell.slot.entry.value), step.observation, step.event, step.now)
         .entry.epoch > cell.slot.entry.value.epoch
  }

  // All calls admitted at one epoch lengthen the delay by at most one step:
  // once one of them has, no other ever does.
  lemma OneEscalationPerEpoch(before: Cell, first: Step, cells: seq<Cell>, steps: seq<Step>, second: Step)
    requires CellInv(before) && Possible(before, first) && Escalates(before, first)
    requires cells != [] && cells[0] == Move(before, first) && Runs(cells, steps)
    requires second.Settle? && second.now > ZERO
    requires second.observation in before.outstanding && Held(cells, second.observation)
    requires second.observation.epoch == first.observation.epoch
    ensures !Escalates(cells[|steps|], second)
    ensures var last := cells[|steps|];
            var after := Move(last, second);
            after.slot.record.Some? && CleanRecord(last.slot.record, second.now).Some? ==>
              after.slot.record.value.delay == last.slot.record.value.delay
  {
    MoveKeeps(before, first);
    EveryRunIsSound(cells, steps, |steps|);
    HeldGrows(cells, steps, second.observation, |steps|);
    assert second.observation in cells[0].outstanding;
    EscalationSpendsEpoch(before, first, second.observation);
    OldEpochsNeverEscalate(cells[|steps|], second);
  }

  lemma EscalationSpendsEpoch(cell: Cell, step: Step, o: Observation)
    requires CellInv(cell) && Possible(cell, step) && Escalates(cell, step)
    requires o in Move(cell, step).outstanding
    ensures Move(cell, step).slot.entry.Some?
    ensures step.observation.epoch == cell.slot.entry.value.epoch < Move(cell, step).slot.entry.value.epoch
  {
    MoveGrows(cell, step, o);
  }

  lemma OldEpochsNeverEscalate(cell: Cell, step: Step)
    requires step.Settle? && cell.slot.entry.Some? && step.observation.epoch < cell.slot.entry.value.epoch
    ensures !Escalates(cell, step)
    ensures var after := Move(cell, step);
            after.slot.record.Some? && CleanRecord(cell.slot.record, step.now).Some? ==>
              after.slot.record.value.delay == cell.slot.record.value.delay
  {
  }

  // --------------------------------------------------- calls sent while suppressed

  // An admission is marked suppressed exactly when a deadline lies ahead of it.
  lemma AdmissionIsMarked(cell: Cell, now: Time, o: Observation)
    requires o == AdmittedAs(cell.key, cell.slot, now) && now > ZERO
    ensures o.suppressed <==> cell.slot.record.Some? && now < cell.slot.record.value.until
  {
  }

  // The call admitted by this step, still out at the end of the run.
  ghost predicate StillOut(before: Cell, now: Time, o: Observation, cells: seq<Cell>, steps: seq<Step>) {
    && CellInv(before) && now > ZERO && o == AdmittedAs(before.key, before.slot, now)
    && cells != [] && cells[0] == Move(before, Admit(now)) && Runs(cells, steps) && Held(cells, o)
  }

  lemma StillOutIsOutstanding(before: Cell, now: Time, o: Observation, cells: seq<Cell>, steps: seq<Step>)
    requires StillOut(before, now, o, cells, steps)
    ensures CellInv(cells[|steps|]) && o in cells[|steps|].outstanding && cells[|steps|].slot.entry.Some?
  {
    MoveKeeps(before, Admit(now));
    EveryRunIsSound(cells, steps, |steps|);
  }

  // The deadline is moved by nothing but a later hint of a transport failure.
  predicate OnlyHinted(record: Record, after: Record, event: Event, now: Time) {
    && after.delay == record.delay
    && (|| after.until == record.until
        || (&& TransportFailed(event) && RetryNotBefore(event.cause, now) == Some(after.until)
            && after.until > record.until))
  }

  // A call admitted ahead of a deadline never lengthens the delay when it
  // completes, whatever happens in between, and moves a live deadline only to a
  // later hint.
  lemma SuppressedCallNeverEscalates(
    before: Cell, now: Time, o: Observation, cells: seq<Cell>, steps: seq<Step>, event: Event, later: Time)
    requires StillOut(before, now, o, cells, steps) && later > ZERO
    requires before.slot.record.Some? && now < before.slot.record.value.until
    ensures var last := cells[|steps|];
            var after := Move(last, Settle(o, event, later)).slot;
            && last.slot.entry.Some?
            && (after.entry.Some? ==> after.entry.value.epoch == last.slot.entry.value.epoch)
            && (last.slot.record.Some? && !Stale(last.slot.record, later) && after.record.Some? ==>
                  OnlyHinted(last.slot.record.value, after.record.value, event, later))
  {
    AdmissionIsMarked(before, now, o);
    StillOutIsOutstanding(before, now, o, cells, steps);
  }

  // One second at first, then twice as long, up to fifteen minutes.
  function Lengthened(delay: int): int {
    if delay == 0 then 1_000_000_000
    else if 2 * delay <= 900_000_000_000 then 2 * delay else 900_000_000_000
  }

  lemma NextBackoffLengthens(delay: int)
    requires delay >= 0
    ensures NextBackoff(delay) == Lengthened(delay)
  {
  }

  lemma DelaysAreNatural(k: nat)
    ensures DelayAfter(k) >= 0
  {
  }

  // A call admitted with no deadline ahead, whose epoch is still the current one
  // and whom no later call has overtaken, lengthens the delay when its transport
  // fails: from nothing if no live record is left, and the new deadline is the
  // later of that delay from now and any hint.
  lemma CurrentFailureEscalates(
    before: Cell, now: Time, o: Observation, cells: seq<Cell>, steps: seq<Step>, event: Event, later: Time)
    requires StillOut(before, now, o, cells, steps) && later > ZERO && TransportFailed(event)
    requires before.slot.record.None? || now >= before.slot.record.value.until
    requires cells[|steps|].slot.entry.Some?
    requires o.epoch == cells[|steps|].slot.entry.value.epoch && o.sequence > cells[|steps|].slot.entry.value.latestReachable
    ensures var last := cells[|steps|];
            var after := Move(last, Settle(o, event, later)).slot;
            var live := last.slot.record.Some? && later < last.slot.record.value.until + 900_000_000_000;
            var delay := Lengthened(if live then last.slot.record.value.delay else 0);
            && after.entry.Some? && after.entry.value.epoch == last.slot.entry.value.epoch + 1
            && after.record.Some? && after.record.value.delay == delay
            && after.record.value.severity == (if live then last.slot.record.value.severity else Transport)
            && var hint := RetryNotBefore(event.cause, later);
               after.record.value.until == if hint.Some? && hint.value > later + delay then hint.value else later + delay
  {
    AdmissionIsMarked(before, now, o);
    StillOutIsOutstanding(before, now, o, cells, steps);
    FreshFailureEscalates(cells[|steps|], o, event, later);
  }

  lemma FreshFailureEscalates(last: Cell, o: Observation, event: Event, later: Time)
    requires CellInv(last) && o in last.outstanding && last.slot.entry.Some? && !o.suppressed
    requires later > ZERO && TransportFailed(event)
    requires o.epoch == last.slot.entry.value.epoch && o.sequence > last.slot.entry.value.latestReachable
    ensures var after := Move(last, Settle(o, event, later)).slot;
            var live := last.slot.record.Some? && later < last.slot.record.value.until + 900_000_000_000;
            var delay := Lengthened(if live then last.slot.record.value.delay else 0);
            && after.entry.Some? && after.entry.value.epoch == last.slot.entry.value.epoch + 1
            && after.record.Some? && after.record.value.delay == delay
            && after.record.value.severity == (if live then last.slot.record.value.severity else Transport)
            && var hint := RetryNotBefore(event.cause, later);
               after.record.value.until == if hint.Some? && hint.value > later + delay then hint.value else later + delay
  {
    if last.slot.record.Some? {
      DelaysAreNatural(last.slot.entry.value.epoch - last.born);
    }
    NextBackoffLengthens(RecordOr(CleanRecord(last.slot.record, later)).delay);
  }

  // An accepted transport failure with an admitted hint leaves a deadline no
  // earlier than the hint.
  lemma HintIsHonoured(cell: Cell, step: Step)
    requires CellInv(cell) && Possible(cell, step) && step.Settle? && TransportFailed(step.event)
    requires step.observation.sequence > cell.slot.entry.value.latestReachable
    requires RetryNotBefore(step.event.cause, step.now).Some?
    ensures Move(cell, step).slot.record.Some?
    ensures Move(cell, step).slot.record.value.until >= RetryNotBefore(step.event.cause, step.now).value
  {
  }

  // In every reachable cell the delay is one second doubled per escalation
  // since the record appeared, capped at fifteen minutes, or nothing yet.
  lemma DelayCountsEscalations(cells: seq<Cell>, steps: seq<Step>, i: nat)
    requires Runs(cells, steps) && cells[0] == Empty(cells[0].key) && i < |cells|
    requires cells[i].slot.record.Some?
    ensures cells[i].slot.entry.Some? && cells[i].born <= cells[i].slot.entry.value.epoch
    ensures cells[i].slot.record.value.delay == DelayAfter(cells[i].slot.entry.value.epoch - cells[i].born)
  {
    EveryRunIsSound(cells, steps, i);
  }

  // ------------------------------------------------------ what does not hold

  // The step sets a new deadline: a transport failure or a refusal of the target
  // itself that is not stale news, from a call of the current epoch.
  predicate SetsDeadline(cell: Cell, step: Step)
    requires cell.slot.entry.Some?
  {
    var entry := cell.slot.entry.value;
    && step.Settle?
    && Fresh(entry, step.observation)
    && (|| (TransportFailed(step.event) && step.observation.sequence > entry.latestReachable)
        || (&& TargetRefused(step.event)
            && step.observation.sequence > entry.latestIngress
            && step.observation.sequence > entry.latestSuppression))
  }

  predicate TargetRefused(event: Event) {
    && event.CallFailed? && !event.cause.unavailable && event.cause.rejected
    && (event.cause.targetUnavailable || event.cause.targetIncompatible)
  }

  // A deadline is recomputed from now, so it can come forward. While a live
  // record survives, its deadline falls exactly when a step sets a new one, the
  // lengthened delay ends before the old one, and, after a transport failure,
  // any hint does too; a refusal's hint is not consulted.
  lemma DeadlineMovesForwardExactlyWhen(cell: Cell, step: Step)
    requires CellInv(cell) && Possible(cell, step)
    requires cell.slot.record.Some? && !Stale(cell.slot.record, step.now)
    requires Move(cell, step).slot.record.Some?
    ensures var record := cell.slot.record.value;
            Move(cell, step).slot.record.value.until < record.until <==>
            && SetsDeadline(cell, step)
            && step.now + NextBackoff(record.delay) < record.until
            && (TransportFailed(step.event) ==>
                  var hint := RetryNotBefore(step.event.cause, step.now);
                  hint.None? || hint.value < record.until)
  {
  }

  const PLAIN_CAUSE := Cause(true, false, false, false, NoHint)
  const GONE_CAUSE := Cause(false, true, true, false, NoHint)
  const HINTED_CAUSE := Cause(true, false, false, false, Seconds(3600))
  const HINTED_GONE_CAUSE := Cause(false, true, true, false, Seconds(7200))

  const HINTED_RUN_END: Time := STALE + 2 * SECOND

  // A run in which the second call's failure leaves an hour-long hinted deadline
  // at an epoch already spent, and a third call of the current epoch is out.
  lemma HintedRun(key: Key) returns (cells: seq<Cell>, steps: seq<Step>, third: Observation)
    ensures Runs(cells, steps) && cells[0] == Empty(key)
    ensures third == Observation(key, 3, 1, false)
    ensures cells[|steps|] == Cell(key, Slot(Some(Record(SECOND, HINTED_RUN_END + 3600 * SECOND, Transport)),
                                             Some(Entry(3, 0, 0, 2, 1, 1))), {third}, 0)
  {
    var t := STALE;
    var later := HINTED_RUN_END;
    var first, second := Observation(key, 1, 0, false), Observation(key, 2, 0, false);
    third := Observation(key, 3, 1, false);
    steps := [Admit(t), Admit(t), Settle(first, CallFailed(PLAIN_CAUSE), t), Admit(later),
              Settle(second, CallFailed(HINTED_CAUSE), later)];
    var c1 := Cell(key, Slot(None, Some(Entry(1, 0, 0, 0, 0, 1))), {first}, 0);
    var c2 := Cell(key, Slot(None, Some(Entry(2, 0, 0, 0, 0, 2))), {first, second}, 0);
    var c3 := Cell(key, Slot(Some(Record(SECOND, t + SECOND, Transport)), Some(Entry(2, 0, 0, 1, 1, 1))), {second}, 0);
    var c4 := Cell(key, Slot(c3.slot.record, Some(Entry(3, 0, 0, 1, 1, 2))), {second, third}, 0);
    var c5 := Cell(key, Slot(Some(Record(SECOND, later + 3600 * SECOND, Transport)), Some(Entry(3, 0, 0, 2, 1, 1))),
                   {third}, 0);
    assert Move(Empty(key), steps[0]) == c1;
    assert Move(c1, steps[1]) == c2;
    assert Move(c2, steps[2]) == c3 by {
      assert {first, second} - {first} == {second};
    }
    assert Move(c3, steps[3]) == c4;
    assert Move(c4, steps[4]) == c5 by {
      assert {second, third} - {second} == {third};
    }
    cells := [Empty(key), c1, c2, c3, c4, c5];
  }

  // The third call's failure brings that deadline forward to two seconds: a
  // transport failure without a hint, or a refusal whose own hint is later than
  // the deadline it replaces.
  lemma DeadlineCanMoveForward(key: Key, refused: bool) returns (cells: seq<Cell>, steps: seq<Step>, last: Step)
    ensures Runs(cells, steps) && cells[0] == Empty(key)
    ensures Possible(cells[|steps|], last) && last.Settle?
    ensures cells[|steps|].slot.record.Some? && Move(cells[|steps|], last).slot.record.Some?
    ensures Move(cells[|steps|], last).slot.record.value.until < cells[|steps|].slot.record.value.until
    ensures if refused then
              && TargetRefused(last.event)
              && RetryNotBefore(last.event.cause, last.now).Some?
              && RetryNotBefore(last.event.cause, last.now).value > cells[|steps|].slot.record.value.until
            else TransportFailed(last.event)
  {
    var third;
    cells, steps, third := HintedRun(key);
    last := Settle(third, CallFailed(if refused then HINTED_GONE_CAUSE else PLAIN_CAUSE), HINTED_RUN_END);
    assert Move(cells[|steps|], last).slot.record.value.until == HINTED_RUN_END + 2 * SECOND;
  }
}
