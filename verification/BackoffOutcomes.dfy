// What each kind of completion does to the record of one target generation,
// stated on the record, the call's own marks and the cause
// (internal/exchange/target_backoff.go).
module BackoffOutcomes {
  import opened Wrappers
  import opened Backoff

  // The record unless its deadline passed fifteen minutes ago.
  function StillHeld(record: Option<Record>, now: Time): Option<Record> {
    match record
    case None => None
    case Some(r) => if now < r.until + 900_000_000_000 then record else None
  }

  // Time passing drops exactly the records long past, and with such a record the
  // entry nobody needs any more.
  lemma PassOutcome(cell: Cell, now: Time)
    ensures var after := Move(cell, Pass(now)).slot;
            && after.record == StillHeld(cell.slot.record, now)
            && after.entry == if after.record != cell.slot.record && cell.slot.entry.Some? && cell.slot.entry.value.inFlight == 0
                              then None else cell.slot.entry
  {
  }

  // The call carries the current epoch and was admitted with no deadline ahead.
  predicate Current(entry: Entry, o: Observation) {
    o.epoch == entry.epoch && !o.suppressed
  }

  function DelayOf(record: Option<Record>): int {
    if record.Some? then record.value.delay else 0
  }

  function UntilOf(record: Option<Record>): Time {
    if record.Some? then record.value.until else 0
  }

  function EpochOf(slot: Slot, otherwise: nat): nat {
    if slot.entry.Some? then slot.entry.value.epoch else otherwise
  }

  ghost predicate Completes(cell: Cell, o: Observation, now: Time) {
    CellInv(cell) && now > 0 && o in cell.outstanding && cell.slot.entry.Some?
  }

  lemma HeldDelayIsNatural(cell: Cell, now: Time)
    requires CellInv(cell)
    ensures DelayOf(StillHeld(cell.slot.record, now)) >= 0
  {
    if cell.slot.record.Some? {
      DelaysAreNatural(cell.slot.entry.value.epoch - cell.born);
    }
  }

  // A transport failure nobody overtook, but of a spent epoch or a suppressed call:
  // the delay and the epoch stay, and only a later hint moves the deadline; with
  // neither record nor hint nothing is recorded.
  lemma OutdatedFailureOutcome(cell: Cell, o: Observation, cause: Cause, now: Time, held: Option<Record>, after: Slot)
    requires Completes(cell, o, now) && cause.unavailable && held == StillHeld(cell.slot.record, now)
    requires o.sequence > cell.slot.entry.value.latestReachable && !Current(cell.slot.entry.value, o)
    requires after == Move(cell, Settle(o, CallFailed(cause), now)).slot
    ensures EpochOf(after, cell.slot.entry.value.epoch) == cell.slot.entry.value.epoch
    ensures var hint := RetryNotBefore(cause, now);
            if held.None? && hint.None? then after.record == None
            else
              && after.record.Some? && after.record.value.delay == DelayOf(held)
              && after.record.value.severity == (if held.Some? then held.value.severity else Transport)
              && after.record.value.until ==
                 if hint.Some? && hint.value > UntilOf(held) then hint.value else UntilOf(held)
  {
  }

  // A refusal of the target itself, by a call some later answer or suppression
  // overtook: at most it marks a held record incompatible.
  lemma OvertakenRefusalOutcome(cell: Cell, o: Observation, cause: Cause, now: Time, held: Option<Record>, after: Slot)
    requires Completes(cell, o, now) && TargetRefused(CallFailed(cause)) && held == StillHeld(cell.slot.record, now)
    requires o.sequence <= cell.slot.entry.value.latestIngress || o.sequence <= cell.slot.entry.value.latestSuppression
    requires after == Move(cell, Settle(o, CallFailed(cause), now)).slot
    ensures EpochOf(after, cell.slot.entry.value.epoch) == cell.slot.entry.value.epoch
    ensures after.record ==
            if held.Some? && cause.targetIncompatible then Some(held.value.(severity := Incompatible)) else held
  {
  }

  // The class a refusal records: incompatible once anyone said so.
  function ClassAfter(cause: Cause, held: Option<Record>): Severity {
    if cause.targetIncompatible || (held.Some? && held.value.severity == Incompatible) then Incompatible else Unavailable
  }

  // One that nobody overtook: a current call lengthens the delay and sets the
  // deadline from now, whatever hint it carries; any other only raises the class.
  lemma RefusalOutcome(cell: Cell, o: Observation, cause: Cause, now: Time, held: Option<Record>, after: Slot)
    requires Completes(cell, o, now) && TargetRefused(CallFailed(cause)) && held == StillHeld(cell.slot.record, now)
    requires o.sequence > cell.slot.entry.value.latestIngress && o.sequence > cell.slot.entry.value.latestSuppression
    requires after == Move(cell, Settle(o, CallFailed(cause), now)).slot
    ensures after.record.Some? && after.record.value.severity == ClassAfter(cause, held) && after.entry.Some?
    ensures if Current(cell.slot.entry.value, o) then
              && after.record.value.delay == Lengthened(DelayOf(held))
              && after.record.value.until == now + Lengthened(DelayOf(held))
              && after.entry.value.epoch == cell.slot.entry.value.epoch + 1
            else
              && after.record.value.delay == DelayOf(held) && after.record.value.until == UntilOf(held)
              && after.entry.value.epoch == cell.slot.entry.value.epoch
  {
    HeldDelayIsNatural(cell, now);
    NextBackoffLengthens(DelayOf(held));
  }

  // Any other rejection shows the target was reached: it clears a transport record
  // no later suppression renewed, and nothing else.
  lemma OtherRejectionOutcome(cell: Cell, o: Observation, cause: Cause, now: Time, held: Option<Record>, after: Slot)
    requires Completes(cell, o, now) && held == StillHeld(cell.slot.record, now)
    requires !cause.unavailable && cause.rejected && !cause.targetUnavailable && !cause.targetIncompatible
    requires after == Move(cell, Settle(o, CallFailed(cause), now)).slot
    ensures EpochOf(after, cell.slot.entry.value.epoch) == cell.slot.entry.value.epoch
    ensures after.record ==
            if held.Some? && held.value.severity == Transport && o.sequence > cell.slot.entry.value.latestSuppression
            then None else held
  {
  }

  // An answer clears the record exactly when no later call was suppressed, and is
  // never judged to lengthen anything.
  lemma AnswerOutcome(cell: Cell, o: Observation, now: Time, held: Option<Record>, after: Slot)
    requires Completes(cell, o, now) && held == StillHeld(cell.slot.record, now)
    requires after == Move(cell, Settle(o, Ingress, now)).slot
    ensures EpochOf(after, cell.slot.entry.value.epoch) == cell.slot.entry.value.epoch
    ensures after.record == if o.sequence > cell.slot.entry.value.latestSuppression then None else held
  {
  }

  // ------------------------------------------------------------- along whole runs

  lemma AnswerRaises(cell: Cell, step: Step, o: Observation)
    requires CellInv(cell) && Possible(cell, step) && step.Settle? && step.event.Ingress?
    requires o in Move(cell, step).outstanding
    ensures Move(cell, step).slot.entry.Some?
    ensures Move(cell, step).slot.entry.value.latestIngress >= step.observation.sequence
  {
    MoveGrows(cell, step, o);
  }

  // Once a call was answered, a refusal of one admitted before it neither
  // suppresses the target nor lengthens its delay, however much happens between.
  lemma StaleRefusalIsIgnored(
    before: Cell, answered: Step, cells: seq<Cell>, steps: seq<Step>, o: Observation, cause: Cause, now: Time)
    requires CellInv(before) && Possible(before, answered) && answered.Settle? && answered.event.Ingress?
    requires cells != [] && cells[0] == Move(before, answered) && Runs(cells, steps)
    requires TargetRefused(CallFailed(cause)) && now > 0
    requires o.sequence <= answered.observation.sequence && o in before.outstanding && Held(cells, o)
    ensures var last := cells[|steps|];
            var held := StillHeld(last.slot.record, now);
            var after := Move(last, Settle(o, CallFailed(cause), now)).slot;
            && last.slot.entry.Some? && EpochOf(after, last.slot.entry.value.epoch) == last.slot.entry.value.epoch
            && after.record ==
               if held.Some? && cause.targetIncompatible then Some(held.value.(severity := Incompatible)) else held
  {
    MoveKeeps(before, answered);
    var last := cells[|steps|];
    EveryRunIsSound(cells, steps, |steps|);
    HeldGrows(cells, steps, o, |steps|);
    assert o in cells[0].outstanding && o in last.outstanding;
    AnswerRaises(before, answered, o);
    OvertakenRefusalOutcome(last, o, cause, now, StillHeld(last.slot.record, now),
                            Move(last, Settle(o, CallFailed(cause), now)).slot);
  }
}
