// When the order of two completions matters: two calls outstanding at one target
// generation, completed at one instant in either order.
module BackoffOrder {
  import opened Wrappers
  import opened Backoff

  // ------------------------------------------------------------ event classes

  // What the ledger sees in a completion.
  datatype Class =
    | Answered
    | Unreachable(hint: Option<Time>)
    | Refused(incompatible: bool)
    | Rejected
    | Ignored

  function ClassOf(event: Event, now: Time): Class {
    match event
    case Ingress => Answered
    case OtherEvent => Ignored
    case CallFailed(cause) =>
      if cause.unavailable then Unreachable(RetryNotBefore(cause, now))
      else if !cause.rejected then Ignored
      else if cause.targetUnavailable || cause.targetIncompatible then Refused(cause.targetIncompatible)
      else Rejected
  }

  // The ledger's knowledge when the first of the two completes: the record left
  // by the clean-up, and the entry with that call taken off its count.
  datatype View = View(record: Option<Record>, entry: Entry, now: Time)

  // No third call is out.
  predicate Idle(v: View) {
    v.entry.inFlight <= 1
  }

  // A refusal that is not stale news.
  predicate Passes(v: View, o: Observation) {
    o.sequence > v.entry.latestIngress && o.sequence > v.entry.latestSuppression
  }

  predicate Unreached(v: View, o: Observation) {
    o.sequence > v.entry.latestReachable
  }

  // Admitted after the latest suppression: an answer deletes the record, a plain
  // rejection one of transport class.
  predicate Later(v: View, o: Observation) {
    o.sequence > v.entry.latestSuppression
  }

  predicate OfTransport(record: Option<Record>) {
    record.Some? && record.value.severity == Transport
  }

  predicate Strong(record: Option<Record>) {
    record.Some? && Rank(record.value.severity) >= Rank(Unavailable)
  }

  predicate Unescalated(record: Option<Record>) {
    record.None? || record.value.delay == 0
  }

  // A refusal from a spent epoch without a record leaves one that has no
  // deadline, which the next clean-up drops.
  predicate Fleeting(v: View, o: Observation) {
    Passes(v, o) && v.record.None? && !Fresh(v.entry, o) && v.now >= ZERO + STALE
  }

  // The hint does not push the present deadline.
  predicate Harmless(record: Option<Record>, hint: Option<Time>) {
    hint.None? || (record.Some? && hint.value <= record.value.until)
  }

  predicate AtMost(hint: Option<Time>, deadline: Time) {
    hint.None? || hint.value <= deadline
  }

  // The deadline an escalation sets.
  function Escalated(v: View): Time {
    v.now + NextBackoff(RecordOr(v.record).delay)
  }

  // ------------------------------------------- what each pair of classes needs

  // An unreachable call after one that may have deleted the record: the deletion
  // is felt unless the record was as good as none.
  predicate ForgetsNothing(v: View, p: Observation, hint: Option<Time>) {
    && OfTransport(v.record) && Unescalated(v.record)
    && (Fresh(v.entry, p) || (hint.Some? && v.record.value.until <= hint.value))
  }

  // The same for a refusal.
  predicate RefusesNothing(v: View, p: Observation, incompatible: bool) {
    && v.record.Some? && Unescalated(v.record)
    && (Fresh(v.entry, p) || v.record.value.until == ZERO)
    && (incompatible || v.record.value.severity != Incompatible)
  }

  // o was admitted before p.
  predicate UnreachableThenClearing(v: View, o: Observation, hint: Option<Time>, clears: bool) {
    || !Unreached(v, o)
    || (clears && Idle(v))
    || (!Fresh(v.entry, o) && !Later(v, o) && (clears || Harmless(v.record, hint)))
  }

  predicate TwoUnreachable(v: View, o: Observation, p: Observation, first: Option<Time>, second: Option<Time>) {
    || !Unreached(v, o)
    || Fresh(v.entry, o) == Fresh(v.entry, p)
    || (Fresh(v.entry, o) && (AtMost(second, Escalated(v)) || (first.Some? && AtMost(second, first.value))))
    || (Fresh(v.entry, p) && (AtMost(first, Escalated(v)) || (second.Some? && AtMost(first, second.value))))
  }

  predicate TwoRefused(v: View, o: Observation, p: Observation, first: bool, second: bool) {
    if !Passes(v, p) then true
    else if !Passes(v, o) then v.record.Some? || (!Fleeting(v, p) && (first ==> second))
    else if Fresh(v.entry, o) then Fresh(v.entry, p)
    else if Fresh(v.entry, p) then v.record.Some? || !Fleeting(v, o) || (first ==> second)
    else !Fleeting(v, p)
  }

  predicate UnreachableThenRefused(v: View, o: Observation, p: Observation, hint: Option<Time>) {
    if !Unreached(v, o) then !Fleeting(v, p)
    else if !Passes(v, p) then !Fresh(v.entry, o) && Harmless(v.record, hint)
    else if Fresh(v.entry, o) then Fresh(v.entry, p) && AtMost(hint, Escalated(v))
    else Fresh(v.entry, p) || (Harmless(v.record, hint) && !Fleeting(v, p))
  }

  predicate RefusedThenUnreachable(v: View, o: Observation, p: Observation, incompatible: bool, hint: Option<Time>) {
    var suppresses := Fresh(v.entry, p) || hint.Some?;
    if !Unreached(v, p) then !Fleeting(v, o)
    else if !Passes(v, o) then v.record.Some? || !incompatible || !suppresses
    else if Fresh(v.entry, o) then Fresh(v.entry, p) && (incompatible || Strong(v.record))
    else if v.record.Some? then incompatible || Strong(v.record)
    else if Fleeting(v, o) then !incompatible || !suppresses
    else incompatible && suppresses
  }

  // Completing o and p in either order leaves the same slot, o admitted first.
  predicate Commutes(v: View, o: Observation, first: Class, p: Observation, second: Class) {
    match (first, second)
    case (Ignored, Refused(_)) => !Fleeting(v, p)
    case (Refused(_), Ignored) => !Fleeting(v, o)
    case (Answered, Unreachable(hint)) =>
      !Unreached(v, p) || v.record.None? || !Later(v, o) || ForgetsNothing(v, p, hint)
    case (Rejected, Unreachable(hint)) =>
      !Unreached(v, p) || !OfTransport(v.record) || !Later(v, o) || ForgetsNothing(v, p, hint)
    case (Unreachable(hint), Answered) => UnreachableThenClearing(v, o, hint, Later(v, p))
    case (Unreachable(hint), Rejected) =>
      UnreachableThenClearing(v, o, hint, Later(v, p) && (v.record.None? || OfTransport(v.record)))
    case (Unreachable(a), Unreachable(b)) => TwoUnreachable(v, o, p, a, b)
    case (Refused(a), Refused(b)) => TwoRefused(v, o, p, a, b)
    case (Unreachable(hint), Refused(_)) => UnreachableThenRefused(v, o, p, hint)
    case (Refused(incompatible), Unreachable(hint)) => RefusedThenUnreachable(v, o, p, incompatible, hint)
    case (Answered, Refused(incompatible)) =>
      || !Passes(v, p)
      || (if Later(v, o) && v.record.Some? then RefusesNothing(v, p, incompatible) else !Fleeting(v, p))
    case (Refused(_), Answered) => !Passes(v, o) || Idle(v)
    case (Rejected, Refused(incompatible)) =>
      if Later(v, o) && OfTransport(v.record) then
        if Passes(v, p) then RefusesNothing(v, p, incompatible) else !incompatible
      else !Fleeting(v, p)
    case (Refused(incompatible), Rejected) =>
      if Later(v, p) && OfTransport(v.record) then
        if Passes(v, o) then RefusesNothing(v, o, incompatible) else !incompatible
      else !Fleeting(v, o)
    case _ => true
  }

  // --------------------------------------------------------------- the judging

  // Judging o and then p, with the clean-up each completion makes.
  function Both(v: View, o: Observation, e: Event, p: Observation, f: Event): Judged {
    var first := Judge(v.record, v.entry, o, e, v.now);
    Judge(CleanRecord(first.record, v.now), Landed(first.entry), p, f, v.now)
  }

  predicate SameSlot(v: View, o: Observation, e: Event, p: Observation, f: Event) {
    Finish(Both(v, o, e, p, f)) == Finish(Both(v, p, f, o, e))
  }

  predicate Unjudged(entry: Entry, o: Observation) {
    && o.epoch <= entry.epoch
    && o.sequence != entry.latestSuppression && o.sequence != entry.latestReachable && o.sequence != entry.latestIngress
  }

  predicate SaneRecord(record: Record) {
    record.severity != NoClass && (record.delay == 0 || record.delay >= SECOND)
  }

  // What the ledger invariant gives of two outstanding calls, o admitted first.
  predicate Sane(v: View, o: Observation, p: Observation) {
    && v.now > ZERO && 1 <= o.sequence < p.sequence
    && v.entry.latestIngress <= v.entry.latestReachable
    && Unjudged(v.entry, o) && Unjudged(v.entry, p)
    && (v.record.Some? ==> SaneRecord(v.record.value) && !Stale(v.record, v.now))
  }

  predicate Quiet(kind: Class) {
    kind.Answered? || kind.Rejected? || kind.Ignored?
  }

  // The condition is exact for this pair.
  predicate Decided(v: View, o: Observation, e: Event, p: Observation, f: Event) {
    SameSlot(v, o, e, p, f) <==> Commutes(v, o, ClassOf(e, v.now), p, ClassOf(f, v.now))
  }

  lemma QuietPairs(v: View, o: Observation, e: Event, p: Observation, f: Event)
    requires Sane(v, o, p) && Quiet(ClassOf(e, v.now)) && Quiet(ClassOf(f, v.now))
    ensures Decided(v, o, e, p, f)
  {
  }

  lemma QuietUnreachable(v: View, o: Observation, e: Event, p: Observation, f: Event)
    requires Sane(v, o, p) && Quiet(ClassOf(e, v.now)) && ClassOf(f, v.now).Unreachable?
    ensures Decided(v, o, e, p, f)
  {
    if Unreached(v, p) {
      QuietUnreachableNews(v, o, e, p, f);
    } else {
      QuietUnreachableLate(v, o, e, p, f);
    }
  }

  lemma QuietUnreachableNews(v: View, o: Observation, e: Event, p: Observation, f: Event)
    requires Sane(v, o, p) && Quiet(ClassOf(e, v.now)) && ClassOf(f, v.now).Unreachable? && Unreached(v, p)
    ensures Decided(v, o, e, p, f)
  {
    if ClassOf(e, v.now).Answered? {
      AnsweredUnreachable(v, o, e, p, f);
    } else {
      OtherUnreachable(v, o, e, p, f);
    }
  }

  lemma OtherUnreachable(v: View, o: Observation, e: Event, p: Observation, f: Event)
    requires Sane(v, o, p) && Quiet(ClassOf(e, v.now)) && !ClassOf(e, v.now).Answered?
    requires ClassOf(f, v.now).Unreachable? && Unreached(v, p)
    ensures Decided(v, o, e, p, f)
  {
  }

  lemma AnsweredUnreachable(v: View, o: Observation, e: Event, p: Observation, f: Event)
    requires Sane(v, o, p) && ClassOf(e, v.now).Answered? && ClassOf(f, v.now).Unreachable? && Unreached(v, p)
    ensures Decided(v, o, e, p, f)
  {
  }

  lemma QuietUnreachableLate(v: View, o: Observation, e: Event, p: Observation, f: Event)
    requires Sane(v, o, p) && Quiet(ClassOf(e, v.now)) && ClassOf(f, v.now).Unreachable? && !Unreached(v, p)
    ensures Decided(v, o, e, p, f)
  {
  }

  lemma UnreachableQuiet(v: View, o: Observation, e: Event, p: Observation, f: Event)
    requires Sane(v, o, p) && ClassOf(e, v.now).Unreachable? && Quiet(ClassOf(f, v.now))
    ensures Decided(v, o, e, p, f)
  {
  }

  lemma AnsweredRefused(v: View, o: Observation, e: Event, p: Observation, f: Event)
    requires Sane(v, o, p) && ClassOf(e, v.now).Answered? && ClassOf(f, v.now).Refused?
    ensures Decided(v, o, e, p, f)
  {
    if Passes(v, p) {
      AnsweredRefusedNews(v, o, e, p, f);
    } else {
      AnsweredRefusedLate(v, o, e, p, f);
    }
  }

  lemma AnsweredRefusedNews(v: View, o: Observation, e: Event, p: Observation, f: Event)
    requires Sane(v, o, p) && ClassOf(e, v.now).Answered? && ClassOf(f, v.now).Refused? && Passes(v, p)
    ensures Decided(v, o, e, p, f)
  {
  }

  lemma AnsweredRefusedLate(v: View, o: Observation, e: Event, p: Observation, f: Event)
    requires Sane(v, o, p) && ClassOf(e, v.now).Answered? && ClassOf(f, v.now).Refused? && !Passes(v, p)
    ensures Decided(v, o, e, p, f)
  {
  }

  lemma RejectedRefused(v: View, o: Observation, e: Event, p: Observation, f: Event)
    requires Sane(v, o, p) && ClassOf(e, v.now).Rejected? && ClassOf(f, v.now).Refused?
    ensures Decided(v, o, e, p, f)
  {
    if Passes(v, p) {
      RejectedRefusedNews(v, o, e, p, f);
    } else {
      RejectedRefusedLate(v, o, e, p, f);
    }
  }

  lemma RejectedRefusedNews(v: View, o: Observation, e: Event, p: Observation, f: Event)
    requires Sane(v, o, p) && ClassOf(e, v.now).Rejected? && ClassOf(f, v.now).Refused? && Passes(v, p)
    ensures Decided(v, o, e, p, f)
  {
  }

  lemma RejectedRefusedLate(v: View, o: Observation, e: Event, p: Observation, f: Event)
    requires Sane(v, o, p) && ClassOf(e, v.now).Rejected? && ClassOf(f, v.now).Refused? && !Passes(v, p)
    ensures Decided(v, o, e, p, f)
  {
  }

  lemma IgnoredRefused(v: View, o: Observation, e: Event, p: Observation, f: Event)
    requires Sane(v, o, p) && ClassOf(e, v.now).Ignored? && ClassOf(f, v.now).Refused?
    ensures Decided(v, o, e, p, f)
  {
  }

  lemma RefusedQuiet(v: View, o: Observation, e: Event, p: Observation, f: Event)
    requires Sane(v, o, p) && ClassOf(e, v.now).Refused? && Quiet(ClassOf(f, v.now))
    ensures Decided(v, o, e, p, f)
  {
    if Passes(v, o) {
      RefusedQuietNews(v, o, e, p, f);
    } else {
      RefusedQuietLate(v, o, e, p, f);
    }
  }

  lemma RefusedQuietNews(v: View, o: Observation, e: Event, p: Observation, f: Event)
    requires Sane(v, o, p) && ClassOf(e, v.now).Refused? && Quiet(ClassOf(f, v.now)) && Passes(v, o)
    ensures Decided(v, o, e, p, f)
  {
  }

  lemma RefusedQuietLate(v: View, o: Observation, e: Event, p: Observation, f: Event)
    requires Sane(v, o, p) && ClassOf(e, v.now).Refused? && Quiet(ClassOf(f, v.now)) && !Passes(v, o)
    ensures Decided(v, o, e, p, f)
  {
  }

  lemma UnreachableTwice(v: View, o: Observation, e: Event, p: Observation, f: Event)
    requires Sane(v, o, p) && ClassOf(e, v.now).Unreachable? && ClassOf(f, v.now).Unreachable?
    ensures Decided(v, o, e, p, f)
  {
    if Unreached(v, o) {
      if Fresh(v.entry, o) {
        UnreachableFirstFresh(v, o, e, p, f);
      } else {
        UnreachableFirstSpent(v, o, e, p, f);
      }
    }
  }

  lemma UnreachableFirstFresh(v: View, o: Observation, e: Event, p: Observation, f: Event)
    requires Sane(v, o, p) && ClassOf(e, v.now).Unreachable? && ClassOf(f, v.now).Unreachable?
    requires Unreached(v, o) && Fresh(v.entry, o)
    ensures Decided(v, o, e, p, f)
  {
  }

  lemma UnreachableFirstSpent(v: View, o: Observation, e: Event, p: Observation, f: Event)
    requires Sane(v, o, p) && ClassOf(e, v.now).Unreachable? && ClassOf(f, v.now).Unreachable?
    requires Unreached(v, o) && !Fresh(v.entry, o)
    ensures Decided(v, o, e, p, f)
  {
  }

  lemma RefusedTwice(v: View, o: Observation, e: Event, p: Observation, f: Event)
    requires Sane(v, o, p) && ClassOf(e, v.now).Refused? && ClassOf(f, v.now).Refused?
    ensures Decided(v, o, e, p, f)
  {
    if !Passes(v, p) {
      RefusedTwiceLate(v, o, e, p, f);
    } else if !Passes(v, o) {
      RefusedTwiceSplit(v, o, e, p, f);
    } else if Fresh(v.entry, o) {
      RefusedTwiceFresh(v, o, e, p, f);
    } else {
      RefusedTwiceSpent(v, o, e, p, f);
    }
  }

  lemma RefusedTwiceLate(v: View, o: Observation, e: Event, p: Observation, f: Event)
    requires Sane(v, o, p) && ClassOf(e, v.now).Refused? && ClassOf(f, v.now).Refused? && !Passes(v, p)
    ensures Decided(v, o, e, p, f)
  {
  }

  lemma RefusedTwiceSplit(v: View, o: Observation, e: Event, p: Observation, f: Event)
    requires Sane(v, o, p) && ClassOf(e, v.now).Refused? && ClassOf(f, v.now).Refused?
    requires !Passes(v, o) && Passes(v, p)
    ensures Decided(v, o, e, p, f)
  {
  }

  lemma RefusedTwiceFresh(v: View, o: Observation, e: Event, p: Observation, f: Event)
    requires Sane(v, o, p) && ClassOf(e, v.now).Refused? && ClassOf(f, v.now).Refused?
    requires Passes(v, o) && Passes(v, p) && Fresh(v.entry, o)
    ensures Decided(v, o, e, p, f)
  {
  }

  lemma RefusedTwiceSpent(v: View, o: Observation, e: Event, p: Observation, f: Event)
    requires Sane(v, o, p) && ClassOf(e, v.now).Refused? && ClassOf(f, v.now).Refused?
    requires Passes(v, o) && Passes(v, p) && !Fresh(v.entry, o)
    ensures Decided(v, o, e, p, f)
  {
  }

  lemma UnreachableRefused(v: View, o: Observation, e: Event, p: Observation, f: Event)
    requires Sane(v, o, p) && ClassOf(e, v.now).Unreachable? && ClassOf(f, v.now).Refused?
    ensures Decided(v, o, e, p, f)
  {
    if Passes(v, p) {
      UnreachableRefusedNews(v, o, e, p, f);
    } else {
      UnreachableRefusedLate(v, o, e, p, f);
    }
  }

  lemma UnreachableRefusedNews(v: View, o: Observation, e: Event, p: Observation, f: Event)
    requires Sane(v, o, p) && ClassOf(e, v.now).Unreachable? && ClassOf(f, v.now).Refused? && Passes(v, p)
    ensures Decided(v, o, e, p, f)
  {
  }

  lemma UnreachableRefusedLate(v: View, o: Observation, e: Event, p: Observation, f: Event)
    requires Sane(v, o, p) && ClassOf(e, v.now).Unreachable? && ClassOf(f, v.now).Refused? && !Passes(v, p)
    ensures Decided(v, o, e, p, f)
  {
  }

  lemma RefusedUnreachable(v: View, o: Observation, e: Event, p: Observation, f: Event)
    requires Sane(v, o, p) && ClassOf(e, v.now).Refused? && ClassOf(f, v.now).Unreachable?
    ensures Decided(v, o, e, p, f)
  {
    if !Unreached(v, p) || !Passes(v, o) {
      RefusedUnreachableLate(v, o, e, p, f);
    } else if Fresh(v.entry, o) {
      RefusedUnreachableFresh(v, o, e, p, f);
    } else {
      RefusedUnreachableSpent(v, o, e, p, f);
    }
  }

  lemma RefusedUnreachableLate(v: View, o: Observation, e: Event, p: Observation, f: Event)
    requires Sane(v, o, p) && ClassOf(e, v.now).Refused? && ClassOf(f, v.now).Unreachable?
    requires !Unreached(v, p) || !Passes(v, o)
    ensures Decided(v, o, e, p, f)
  {
  }

  lemma RefusedUnreachableFresh(v: View, o: Observation, e: Event, p: Observation, f: Event)
    requires Sane(v, o, p) && ClassOf(e, v.now).Refused? && ClassOf(f, v.now).Unreachable?
    requires Unreached(v, p) && Passes(v, o) && Fresh(v.entry, o)
    ensures Decided(v, o, e, p, f)
  {
  }

  lemma RefusedUnreachableSpent(v: View, o: Observation, e: Event, p: Observation, f: Event)
    requires Sane(v, o, p) && ClassOf(e, v.now).Refused? && ClassOf(f, v.now).Unreachable?
    requires Unreached(v, p) && Passes(v, o) && !Fresh(v.entry, o)
    ensures Decided(v, o, e, p, f)
  {
  }

  lemma EveryPairIsDecided(v: View, o: Observation, e: Event, p: Observation, f: Event)
    requires Sane(v, o, p)
    ensures Decided(v, o, e, p, f)
  {
    var a, b := ClassOf(e, v.now), ClassOf(f, v.now);
    if a.Unreachable? {
      if b.Unreachable? {
        UnreachableTwice(v, o, e, p, f);
      } else if b.Refused? {
        UnreachableRefused(v, o, e, p, f);
      } else {
        UnreachableQuiet(v, o, e, p, f);
      }
    } else if a.Refused? {
      if b.Unreachable? {
        RefusedUnreachable(v, o, e, p, f);
      } else if b.Refused? {
        RefusedTwice(v, o, e, p, f);
      } else {
        RefusedQuiet(v, o, e, p, f);
      }
    } else {
      QuietFirst(v, o, e, p, f);
    }
  }

  lemma QuietFirst(v: View, o: Observation, e: Event, p: Observation, f: Event)
    requires Sane(v, o, p) && Quiet(ClassOf(e, v.now))
    ensures Decided(v, o, e, p, f)
  {
    var a, b := ClassOf(e, v.now), ClassOf(f, v.now);
    if b.Unreachable? {
      QuietUnreachable(v, o, e, p, f);
    } else if !b.Refused? {
      QuietPairs(v, o, e, p, f);
    } else if a.Answered? {
      AnsweredRefused(v, o, e, p, f);
    } else if a.Rejected? {
      RejectedRefused(v, o, e, p, f);
    } else {
      IgnoredRefused(v, o, e, p, f);
    }
  }

  // ------------------------------------------------------------ in the ledger

  function ViewOf(cell: Cell, now: Time): View
    requires cell.slot.entry.Some?
  {
    View(CleanRecord(cell.slot.record, now), Landed(cell.slot.entry.value), now)
  }

  lemma {:induction false} DelayIsSane(k: nat)
    ensures DelayAfter(k) == 0 || DelayAfter(k) >= SECOND
  {
    if k > 0 {
      Pow2Grows(0, k - 1);
      assert Pow2(0) == 1;
    }
  }

  lemma OutstandingIsSane(cell: Cell, o: Observation, p: Observation, now: Time)
    requires CellInv(cell) && o in cell.outstanding && p in cell.outstanding && o.sequence < p.sequence && now > ZERO
    ensures cell.slot.entry.Some? && Sane(ViewOf(cell, now), o, p)
  {
    if cell.slot.record.Some? {
      DelayIsSane(cell.slot.entry.value.epoch - cell.born);
    }
  }

  lemma TwoStepsAreBoth(cell: Cell, x: Step, y: Step, v: View)
    requires CellInv(cell) && x.Settle? && y.Settle? && x.now == y.now && x.observation != y.observation
    requires x.observation in cell.outstanding && y.observation in cell.outstanding
    requires cell.slot.entry.Some? && v == ViewOf(cell, x.now)
    ensures Move(Move(cell, x), y).slot == Finish(Both(v, x.observation, x.event, y.observation, y.event))
  {
    assert {x.observation, y.observation} <= cell.outstanding;
    assert |cell.outstanding - {x.observation}| == |cell.outstanding| - 1;
    assert y.observation in cell.outstanding - {x.observation};
    assert cell.slot.entry.value.inFlight >= 2;
    JudgeGrows(v.record, v.entry, x.observation, x.event, x.now);
  }

  // Two outstanding calls completing at one instant leave the same slot in either
  // order exactly when their classes, their sequence numbers and epochs against
  // the entry, and the record allow it.
  lemma CompletionsCommuteExactlyWhen(cell: Cell, x: Step, y: Step)
    requires CellInv(cell) && Possible(cell, x) && Possible(cell, y) && x.Settle? && y.Settle?
    requires x.now == y.now && x.observation.sequence < y.observation.sequence
    ensures cell.slot.entry.Some?
    ensures Move(Move(cell, x), y).slot == Move(Move(cell, y), x).slot <==>
            Commutes(ViewOf(cell, x.now), x.observation, ClassOf(x.event, x.now), y.observation, ClassOf(y.event, y.now))
  {
    OutstandingIsSane(cell, x.observation, y.observation, x.now);
    var v := ViewOf(cell, x.now);
    TwoStepsAreBoth(cell, x, y, v);
    TwoStepsAreBoth(cell, y, x, v);
    EveryPairIsDecided(v, x.observation, x.event, y.observation, y.event);
  }

  // Distinct outstanding calls always differ in sequence, so one of the two
  // orders of the theorem applies to any pair.
  lemma OutstandingAreOrdered(cell: Cell, o: Observation, p: Observation)
    requires CellInv(cell) && o in cell.outstanding && p in cell.outstanding && o != p
    ensures o.sequence < p.sequence || p.sequence < o.sequence
  {
  }

  // Two calls admitted to an empty ledger.
  lemma TwoAdmitted(key: Key) returns (cells: seq<Cell>, steps: seq<Step>, first: Observation, second: Observation)
    ensures Runs(cells, steps) && cells[0] == Empty(key)
    ensures first == Observation(key, 1, 0, false) && second == Observation(key, 2, 0, false)
    ensures cells[|steps|] == Cell(key, Slot(None, Some(Entry(2, 0, 0, 0, 0, 2))), {first, second}, 0)
  {
    first, second := Observation(key, 1, 0, false), Observation(key, 2, 0, false);
    steps := [Admit(STALE), Admit(STALE)];
    var a := Cell(key, Slot(None, Some(Entry(1, 0, 0, 0, 0, 1))), {first}, 0);
    var b := Cell(key, Slot(None, Some(Entry(2, 0, 0, 0, 0, 2))), {first, second}, 0);
    assert Move(Empty(key), steps[0]) == a;
    assert Move(a, steps[1]) == b;
    cells := [Empty(key), a, b];
  }

  lemma RefusalFirst(cell: Cell, first: Observation, second: Observation)
    requires cell.slot == Slot(None, Some(Entry(2, 0, 0, 0, 0, 2)))
    requires first == Observation(cell.key, 1, 0, false) && second == Observation(cell.key, 2, 0, false)
    ensures Move(Move(cell, Settle(first, CallFailed(GONE_CAUSE), STALE)), Settle(second, CallFailed(PLAIN_CAUSE), STALE))
              .slot.record == Some(Record(SECOND, STALE + SECOND, Unavailable))
  {
    var next := Move(cell, Settle(first, CallFailed(GONE_CAUSE), STALE));
    assert next.slot == Slot(Some(Record(SECOND, STALE + SECOND, Unavailable)), Some(Entry(2, 1, 0, 1, 1, 1)));
  }

  lemma FailureFirst(cell: Cell, first: Observation, second: Observation)
    requires cell.slot == Slot(None, Some(Entry(2, 0, 0, 0, 0, 2)))
    requires first == Observation(cell.key, 1, 0, false) && second == Observation(cell.key, 2, 0, false)
    ensures Move(Move(cell, Settle(second, CallFailed(PLAIN_CAUSE), STALE)), Settle(first, CallFailed(GONE_CAUSE), STALE))
              .slot.record == Some(Record(SECOND, STALE + SECOND, Transport))
  {
    var next := Move(cell, Settle(second, CallFailed(PLAIN_CAUSE), STALE));
    assert next.slot == Slot(Some(Record(SECOND, STALE + SECOND, Transport)), Some(Entry(2, 0, 0, 2, 1, 1)));
  }

  // A run from the empty ledger to two outstanding calls whose completions leave
  // different severities: a refusal by the first admitted, a transport failure of
  // the second.
  lemma CompletionOrderMatters(key: Key) returns (cells: seq<Cell>, steps: seq<Step>, x: Step, y: Step)
    ensures Runs(cells, steps) && cells[0] == Empty(key)
    ensures x.Settle? && y.Settle? && x.now == y.now && x.observation != y.observation
    ensures Possible(cells[|steps|], x) && Possible(cells[|steps|], y)
    ensures Move(Move(cells[|steps|], x), y).slot.record == Some(Record(SECOND, STALE + SECOND, Unavailable))
    ensures Move(Move(cells[|steps|], y), x).slot.record == Some(Record(SECOND, STALE + SECOND, Transport))
  {
    var first, second;
    cells, steps, first, second := TwoAdmitted(key);
    x, y := Settle(first, CallFailed(GONE_CAUSE), STALE), Settle(second, CallFailed(PLAIN_CAUSE), STALE);
    RefusalFirst(cells[|steps|], first, second);
    FailureFirst(cells[|steps|], first, second);
  }
}
