// What fingerprint-keyed sharing does to the checkpoints the store keeps: when a
// put is stored as committed, and what a whole run of the store preserves.
module StoreHistories {
  import opened Wrappers
  import opened Text
  import opened Canonical
  import opened CheckpointStore

  type Representatives = map<HistoryKey, seq<Item>>

  // ------------------------------------------------------------------ one put

  // The fingerprint a put is filed under, when its evidence is one.
  function FiledUnder(reuse: StorageReuse, workspace: string): Option<HistoryKey> {
    if reuse.token.None? && reuse.history.Some? then Some(HistoryKey(workspace, reuse.history.value)) else None
  }

  // A put that declares a fingerprint is stored as committed exactly when the
  // store has no representative for it, or has the declared prefix itself.
  lemma FingerprintPutIsVerbatimExactlyWhen(
    commit: Commit, store: MemoryStore, workspace: string, representatives: Representatives, reused: Reused,
    history: History, preparedAt: Time)
    requires SplitRequestPrelude(commit.checkpoint.request.items).Some?
    requires Reuses(commit, store, workspace, representatives, reused)
    requires commit.reuse.token.None? && commit.reuse.history == Some(history)
    ensures var key := HistoryKey(workspace, history);
            var declared := RetainedHistory(commit.checkpoint.request.items)[..commit.reuse.prefixLength];
            StoredAsCommitted(Settled(commit.checkpoint, preparedAt, reused), commit.checkpoint, preparedAt)
            <==> key !in representatives || representatives[key] == declared
  {
    VerbatimIffExact(commit.checkpoint, preparedAt, reused);
  }

  // ---------------------------------------------------------------- whole runs

  // Which item sequences a fingerprint stands for. Codecs fingerprint what the
  // client sees, so one fingerprint may have several spellings.
  type Spelling = (HistoryKey, seq<Item>) -> bool

  ghost predicate Faithful(representatives: Representatives, spells: Spelling) {
    forall key :: key in representatives ==> spells(key, representatives[key])
  }

  // The evidence of a put is true: a token's tail begins the history committed
  // with it, and a declared prefix is a spelling of its fingerprint.
  ghost predicate TrueEvidence(reuse: StorageReuse, store: MemoryStore, workspace: string, retained: seq<Item>, spells: Spelling)
    requires Minted(reuse, store) && ReuseRefusal(reuse, store, workspace, retained).None?
  {
    && (reuse.token.Some? ==> Flatten(reuse.token.value.tail) <= retained)
    && (FiledUnder(reuse, workspace).Some? ==> spells(FiledUnder(reuse, workspace).value, retained[..reuse.prefixLength]))
  }

  // Stored as committed, except that a declared prefix may have become another
  // spelling of the same fingerprint.
  ghost predicate KeepsMeaning(
    commit: Commit, workspace: string, preparedAt: Time, stored: Checkpoint, spells: Spelling, reused: Reused)
  {
    var retained := RetainedHistory(commit.checkpoint.request.items);
    && SplitRequestPrelude(commit.checkpoint.request.items).Some?
    && reused.covers <= |retained|
    && CarriedOver(stored, commit.checkpoint, preparedAt)
    && stored.request.items
       == SplitRequestPrelude(commit.checkpoint.request.items).value.prelude.items + (reused.items + retained[reused.covers..])
    && (|| ExactReuse(reused, retained)
        || (&& FiledUnder(commit.reuse, workspace).Some?
            && spells(FiledUnder(commit.reuse, workspace).value, reused.items)
            && spells(FiledUnder(commit.reuse, workspace).value, retained[..reused.covers])))
  }

  // Some of the representatives, unchanged.
  ghost predicate Surviving(after: Representatives, before: Representatives) {
    forall key :: key in after ==> key in before && after[key] == before[key]
  }

  // The store as its callers see it.
  datatype View = View(plain: Plain, representatives: Representatives)

  datatype Act =
    | Refuse
    | Reclaim(now: Time)
    | Accept(workspace: string, commit: Commit, preparedAt: Time, now: Time)

  function KeyOf(act: Act): RecordId
    requires act.Accept?
  {
    RecordId(act.workspace, act.commit.checkpoint.response.ref.swobuId)
  }

  ghost predicate Accepted(
    store: MemoryStore, before: View, act: Act, after: View,
    live: Representatives, kept: Representatives, reused: Reused)
    requires act.Accept?
  {
    && LateRefusal(act.workspace, act.commit, store, Live(before.plain, act.now)).None?
    && Surviving(live, before.representatives) && Surviving(kept, live)
    && Reuses(act.commit, store, act.workspace, live, reused)
    && PlainStep(before.plain, Adds(act.now, KeyOf(act), Settled(act.commit.checkpoint, act.preparedAt, reused)), after.plain)
    && after.representatives == WithRepresentative(kept, act.commit.reuse, act.workspace, reused.items)
  }

  ghost predicate ViewStep(store: MemoryStore, before: View, act: Act, after: View) {
    match act
    case Refuse => after == before
    case Reclaim(now) =>
      after.plain == Live(before.plain, now) && Surviving(after.representatives, before.representatives)
    case Accept(_, _, _, _) =>
      exists live: Representatives, kept: Representatives, reused: Reused ::
        Accepted(store, before, act, after, live, kept, reused)
  }

  ghost predicate ViewRun(store: MemoryStore, views: seq<View>, acts: seq<Act>) {
    && |views| == |acts| + 1
    && forall i :: 0 <= i < |acts| ==> ViewStep(store, views[i], acts[i], views[i + 1])
  }

  // The accepted checkpoint is on file with its meaning kept.
  ghost predicate StoredFaithfully(act: Act, plain: Plain, spells: Spelling)
    requires act.Accept?
  {
    && KeyOf(act) in plain
    && exists reused: Reused ::
         KeepsMeaning(act.commit, act.workspace, act.preparedAt, plain[KeyOf(act)], spells, reused)
  }

  // An accepted put's evidence was admissible; this says it was also true.
  ghost predicate Truthful(store: MemoryStore, act: Act, spells: Spelling) {
    act.Accept? ==>
      var retained := RetainedHistory(act.commit.checkpoint.request.items);
      && Minted(act.commit.reuse, store)
      && (ReuseRefusal(act.commit.reuse, store, act.workspace, retained).None? ==>
            TrueEvidence(act.commit.reuse, store, act.workspace, retained, spells))
  }

  lemma EvidenceIsKept(
    commit: Commit, store: MemoryStore, workspace: string, live: Representatives, kept: Representatives, reused: Reused,
    spells: Spelling)
    requires Reuses(commit, store, workspace, live, reused) && Faithful(live, spells) && Surviving(kept, live)
    requires TrueEvidence(commit.reuse, store, workspace, RetainedHistory(commit.checkpoint.request.items), spells)
    ensures Faithful(WithRepresentative(kept, commit.reuse, workspace, reused.items), spells)
    ensures var retained := RetainedHistory(commit.checkpoint.request.items);
            || ExactReuse(reused, retained)
            || (&& FiledUnder(commit.reuse, workspace).Some?
                && spells(FiledUnder(commit.reuse, workspace).value, reused.items)
                && spells(FiledUnder(commit.reuse, workspace).value, retained[..reused.covers]))
  {
  }

  // One step keeps every representative a spelling of its fingerprint, and an
  // accepted put keeps its meaning.
  lemma StepKeepsMeaning(store: MemoryStore, before: View, act: Act, after: View, spells: Spelling)
    requires ViewStep(store, before, act, after) && Truthful(store, act, spells)
    requires Faithful(before.representatives, spells)
    ensures Faithful(after.representatives, spells)
    ensures act.Accept? ==> StoredFaithfully(act, after.plain, spells)
  {
    if act.Accept? {
      var live, kept, reused :| Accepted(store, before, act, after, live, kept, reused);
      EvidenceIsKept(act.commit, store, act.workspace, live, kept, reused, spells);
      assert KeepsMeaning(act.commit, act.workspace, act.preparedAt, after.plain[KeyOf(act)], spells, reused);
    }
  }

  // Along every run whose puts carry true evidence, with any number of
  // expirations, evictions and sweeps between them, every representative is a
  // spelling of its fingerprint and every accepted put keeps its meaning.
  lemma {:induction false} RunsKeepMeaning(store: MemoryStore, views: seq<View>, acts: seq<Act>, spells: Spelling, i: nat)
    requires ViewRun(store, views, acts) && Faithful(views[0].representatives, spells)
    requires forall j :: 0 <= j < |acts| ==> Truthful(store, acts[j], spells)
    requires i < |views|
    ensures Faithful(views[i].representatives, spells)
    ensures i > 0 && acts[i - 1].Accept? ==> StoredFaithfully(acts[i - 1], views[i].plain, spells)
  {
    if i > 0 {
      RunsKeepMeaning(store, views, acts, spells, i - 1);
      StepKeepsMeaning(store, views[i - 1], acts[i - 1], views[i], spells);
    }
  }

  function Exactly(denote: HistoryKey -> seq<Item>): Spelling {
    (key: HistoryKey, items: seq<Item>) => items == denote(key)
  }

  // When every fingerprint has one spelling, every accepted put of such a run is
  // stored exactly as committed.
  lemma RunsStoreVerbatim(store: MemoryStore, views: seq<View>, acts: seq<Act>, denote: HistoryKey -> seq<Item>, i: nat)
    requires ViewRun(store, views, acts) && Faithful(views[0].representatives, Exactly(denote))
    requires forall j :: 0 <= j < |acts| ==> Truthful(store, acts[j], Exactly(denote))
    requires i < |acts| && acts[i].Accept?
    ensures KeyOf(acts[i]) in views[i + 1].plain
    ensures StoredAsCommitted(views[i + 1].plain[KeyOf(acts[i])], acts[i].commit.checkpoint, acts[i].preparedAt)
  {
    RunsKeepMeaning(store, views, acts, Exactly(denote), i + 1);
    var act, after := acts[i], views[i + 1];
    var reused :| KeepsMeaning(act.commit, act.workspace, act.preparedAt, after.plain[KeyOf(act)], Exactly(denote), reused);
    VerbatimIffExact(act.commit.checkpoint, act.preparedAt, reused);
  }

  // ------------------------------------------------------ the store makes steps

  datatype Operation =
    | GetById(workspace: string, id: string, now: Time)
    | Find(workspace: string, history: History, now: Time)
    | PutNew(workspace: string, commit: Commit, preparedAt: Time, checkedAt: Time, now: Time)

  ghost function ViewOf(store: MemoryStore): View
    requires store.Valid()
    reads store
  {
    View(store.Contents(), store.Representatives())
  }

  // Sweeping only drops representatives.
  lemma StandingSurvives(visible: map<HistoryKey, Segment?>, records: map<RecordId, Stored>)
    requires ShapesHold(records) && TailsHold(visible)
    ensures Surviving(StandingRepresentatives(visible, records), RepresentativesOf(visible))
  {
  }

  lemma FewerStand(visible: map<HistoryKey, Segment?>, more: map<RecordId, Stored>, fewer: map<RecordId, Stored>)
    requires ShapesHold(more) && TailsHold(visible) && KeptFrom(fewer, more)
    ensures ShapesHold(fewer)
    ensures Surviving(StandingRepresentatives(visible, fewer), StandingRepresentatives(visible, more))
  {
    StandingChains(visible, more, fewer);
    StandingSurvives(Swept(visible, more), fewer);
  }

  // What an accepted put leaves behind is an accepted step.
  lemma AcceptedIsStep(
    store: MemoryStore, before: View, act: Act, after: View, live: Representatives, kept: Representatives,
    room: Plain, reused: Reused)
    requires act.Accept? && LateRefusal(act.workspace, act.commit, store, Live(before.plain, act.now)).None?
    requires Surviving(live, before.representatives) && Surviving(kept, live)
    requires Reuses(act.commit, store, act.workspace, live, reused)
    requires MakesRoom(Live(before.plain, act.now), room)
    requires after == View(room[KeyOf(act) := Settled(act.commit.checkpoint, act.preparedAt, reused)],
                           WithRepresentative(kept, act.commit.reuse, act.workspace, reused.items))
    ensures ViewStep(store, before, act, after)
  {
    AcceptedPutAdds(before.plain, act.now, room, KeyOf(act), Settled(act.commit.checkpoint, act.preparedAt, reused));
    assert Accepted(store, before, act, after, live, kept, reused);
  }

  method PerformPut(store: MemoryStore, operation: Operation) returns (ghost act: Act)
    requires store.Valid() && operation.PutNew?
    requires Minted(operation.commit.reuse, store) && WellFormedResponse(operation.commit.checkpoint.response)
    modifies store
    ensures store.Valid()
    ensures ViewStep(store, old(ViewOf(store)), act, ViewOf(store))
    ensures act.Accept? ==> act == Accept(TrimSpace(operation.workspace), operation.commit, operation.preparedAt, operation.now)
  {
    ghost var before := ViewOf(store);
    ghost var visible, records := store.visibleHistory, LiveRecords(store.records, operation.now);
    StandingSurvives(visible, records);
    var r, held, reused :=
      store.Put(operation.workspace, operation.commit, operation.preparedAt, operation.checkedAt, operation.now);
    if EarlyRefusal(operation.workspace, operation.commit.checkpoint, operation.preparedAt, operation.checkedAt).Some? {
      act := Refuse;
    } else if r.Err? {
      act := Reclaim(operation.now);
    } else {
      act := Accept(TrimSpace(operation.workspace), operation.commit, operation.preparedAt, operation.now);
      FewerStand(visible, records, held);
      AcceptedIsStep(store, before, act, ViewOf(store), StandingRepresentatives(visible, records),
                     StandingRepresentatives(visible, held), ContentsOf(held), reused);
    }
  }

  // Every operation of the store is one step of its view.
  method Perform(store: MemoryStore, operation: Operation) returns (ghost act: Act)
    requires store.Valid()
    requires operation.PutNew? ==>
               Minted(operation.commit.reuse, store) && WellFormedResponse(operation.commit.checkpoint.response)
    modifies store
    ensures store.Valid()
    ensures ViewStep(store, old(ViewOf(store)), act, ViewOf(store))
    ensures act.Accept? ==>
              operation.PutNew? && act == Accept(TrimSpace(operation.workspace), operation.commit, operation.preparedAt, operation.now)
  {
    ghost var before := ViewOf(store);
    StandingSurvives(store.visibleHistory, LiveRecords(store.records, operation.now));
    match operation {
      case GetById(workspace, id, now) =>
        var found := store.Get(workspace, id, now);
        act := if found.Err? then Refuse else Reclaim(now);
      case Find(workspace, history, now) =>
        var found := store.FindByHistory(workspace, history, now);
        act := if found.Err? then Refuse else Reclaim(now);
      case PutNew(_, _, _, _, _) =>
        act := PerformPut(store, operation);
    }
  }

  // --------------------------------------------------- one fingerprint, two spellings

  // With nothing expired, reclaiming changes nothing.
  lemma NothingToReclaim(visible: map<HistoryKey, Segment?>, records: map<RecordId, Stored>, now: Time)
    requires ShapesHold(records) && TailsHold(visible) && TailsReachable(visible, records)
    requires forall k :: k in ContentsOf(records) ==> !Expired(ContentsOf(records)[k], now)
    ensures LiveRepresentatives(visible, records, now) == RepresentativesOf(visible)
    ensures LiveRecords(records, now) == records && Live(ContentsOf(records), now) == ContentsOf(records)
  {
    assert forall k :: k in records ==> ContentsOf(records)[k].expiresAt == records[k].checkpoint.expiresAt;
    assert LiveRecords(records, now) == records;
    SweepIsIdle(visible, records);
  }

  // A put that will not be refused.
  ghost predicate Admissible(workspace: string, checkpoint: Checkpoint, declared: nat, now: Time) {
    && EarlyRefusal(workspace, checkpoint, now, now).None? && WellFormedResponse(checkpoint.response)
    && SplitRequestPrelude(checkpoint.request.items).Some?
    && declared <= |RetainedHistory(checkpoint.request.items)|
  }

  lemma AllAreHeld(held: map<RecordId, Stored>, records: map<RecordId, Stored>)
    requires ShapesHold(records) && KeptFrom(held, records) && ContentsOf(held) == ContentsOf(records)
    ensures held == records
  {
    assert held.Keys == ContentsOf(held).Keys && records.Keys == ContentsOf(records).Keys;
  }

  function OnFile(representatives: Representatives, key: HistoryKey, declared: seq<Item>): seq<Item> {
    if key in representatives then representatives[key] else declared
  }

  lemma SpellingOnFile(
    commit: Commit, store: MemoryStore, workspace: string, representatives: Representatives, reused: Reused,
    history: History, now: Time)
    requires SplitRequestPrelude(commit.checkpoint.request.items).Some?
    requires Reuses(commit, store, workspace, representatives, reused)
    requires commit.reuse.token.None? && commit.reuse.history == Some(history)
    ensures var declared := RetainedHistory(commit.checkpoint.request.items)[..commit.reuse.prefixLength];
            var items := OnFile(representatives, HistoryKey(workspace, history), declared);
            && reused == Reused(items, commit.reuse.prefixLength)
            && (StoredAsCommitted(Settled(commit.checkpoint, now, reused), commit.checkpoint, now) <==> items == declared)
  {
    FingerprintPutIsVerbatimExactlyWhen(commit, store, workspace, representatives, reused, history, now);
  }

  // A put under a fingerprint to a store with room and nothing expired: it is
  // stored with the representative on file in place of what it declares, and as
  // committed exactly when the two agree.
  method PutUnder(store: MemoryStore, workspace: string, history: History, checkpoint: Checkpoint, declared: nat, now: Time)
    returns (key: RecordId)
    requires store.Valid() && Admissible(workspace, checkpoint, declared, now)
    requires RecordId(TrimSpace(workspace), checkpoint.response.ref.swobuId) !in store.Contents()
    requires |store.Contents()| < MAX_RECORDS
    requires forall k :: k in store.Contents() ==> !Expired(store.Contents()[k], now)
    modifies store
    ensures store.Valid() && key == RecordId(TrimSpace(workspace), checkpoint.response.ref.swobuId)
    ensures var filed := HistoryKey(TrimSpace(workspace), history);
            var prefix := RetainedHistory(checkpoint.request.items)[..declared];
            var items := OnFile(old(store.Representatives()), filed, prefix);
            && store.Contents() == old(store.Contents())[key := Settled(checkpoint, now, Reused(items, declared))]
            && store.Representatives() == WithEntry(old(store.Representatives()), Some(filed), items)
            && (StoredAsCommitted(store.Contents()[key], checkpoint, now) <==> items == prefix)
  {
    ghost var visible, records := store.visibleHistory, store.records;
    NothingToReclaim(visible, records, now);
    ghost var representatives := store.Representatives();
    var commit := Commit(checkpoint, ReuseVisibleHistory(history, declared));
    assert ReuseRefusal(commit.reuse, store, TrimSpace(workspace), RetainedHistory(checkpoint.request.items)).None?;
    var r, held, reused := store.Put(workspace, commit, now, now, now);
    key := r.value;
    AllAreHeld(held, records);
    SweepIsIdle(visible, records);
    assert StandingRepresentatives(visible, held) == representatives;
    SpellingOnFile(commit, store, TrimSpace(workspace), representatives, reused, history, now);
  }

  lemma AdmissibleIsLive(workspace: string, checkpoint: Checkpoint, declared: nat, now: Time)
    requires Admissible(workspace, checkpoint, declared, now)
    ensures CommittedDeadline(checkpoint, now) > now
  {
  }

  lemma FirstSpelling(plain: Plain, key: RecordId, first: Checkpoint, declared: nat, now: Time)
    requires SplitRequestPrelude(first.request.items).Some? && declared <= |RetainedHistory(first.request.items)|
    requires plain == map[key := Settled(first, now, Reused(RetainedHistory(first.request.items)[..declared], declared))]
    requires CommittedDeadline(first, now) > now
    ensures plain.Keys == {key} && StoredAsCommitted(plain[key], first, now) && |plain| < MAX_RECORDS
    ensures forall k :: k in plain ==> !Expired(plain[k], now)
  {
    VerbatimIffExact(first, now, Reused(RetainedHistory(first.request.items)[..declared], declared));
    assert |plain| == |plain.Keys| && plain.Keys == {key};
  }

  method PutFirst(workspace: string, history: History, first: Checkpoint, n: nat, now: Time)
    returns (store: MemoryStore, a: RecordId)
    requires Admissible(workspace, first, n, now)
    ensures fresh(store) && store.Valid() && a == RecordId(TrimSpace(workspace), first.response.ref.swobuId)
    ensures store.Contents().Keys == {a} && StoredAsCommitted(store.Contents()[a], first, now)
    ensures |store.Contents()| < MAX_RECORDS
    ensures forall k :: k in store.Contents() ==> !Expired(store.Contents()[k], now)
    ensures store.Representatives()
         == WithEntry(map[], Some(HistoryKey(TrimSpace(workspace), history)), RetainedHistory(first.request.items)[..n])
  {
    store := new MemoryStore();
    ghost var declared := RetainedHistory(first.request.items)[..n];
    assert store.Contents() == map[] && store.Representatives() == map[];
    a := PutUnder(store, workspace, history, first, n, now);
    assert OnFile(map[], HistoryKey(TrimSpace(workspace), history), declared) == declared;
    AdmissibleIsLive(workspace, first, n, now);
    FirstSpelling(store.Contents(), a, first, n, now);
  }

  // Two puts to a new store under one fingerprint, declaring n and m items. The
  // first is stored as committed; the second exactly when it declares the same
  // items, or when the first declared none.
  method PutTwice(workspace: string, history: History, first: Checkpoint, n: nat, second: Checkpoint, m: nat, now: Time)
    returns (store: MemoryStore, a: RecordId, b: RecordId)
    requires Admissible(workspace, first, n, now) && Admissible(workspace, second, m, now)
    requires first.response.ref.swobuId != second.response.ref.swobuId
    ensures store.Valid() && a in store.Contents() && b in store.Contents()
    ensures StoredAsCommitted(store.Contents()[a], first, now)
    ensures var declared := RetainedHistory(first.request.items)[..n];
            var prefix := RetainedHistory(second.request.items)[..m];
            && store.Contents()[b] == Settled(second, now, Reused(if n > 0 then declared else prefix, m))
            && (StoredAsCommitted(store.Contents()[b], second, now) <==> n == 0 || declared == prefix)
  {
    store, a := PutFirst(workspace, history, first, n, now);
    b := PutUnder(store, workspace, history, second, m, now);
  }

  const NO_CONTROLS := Controls(None, None, "", "", None, None)

  function Said(text: string): Item {
    Message(User, HistoryScope, text)
  }

  function PlainCheckpoint(id: string, items: seq<Item>): Checkpoint {
    Checkpoint(None, "", Request(Some("m"), items, None, NO_CONTROLS), Response(ResponseRef(id, None, None), [], ""),
               0, None, NO_REUSE)
  }

  lemma PlainIsAdmissible(workspace: string, id: string, items: seq<Item>, declared: nat, now: Time)
    requires !Blank(workspace) && !Blank(id) && NoneScoped(items) && declared <= |items|
    ensures Admissible(workspace, PlainCheckpoint(id, items), declared, now)
  {
    HistoryAlone(items);
  }

  // Items with no prelude are all history.
  lemma HistoryAlone(items: seq<Item>)
    requires NoneScoped(items)
    ensures SplitRequestPrelude(items) == Some(Split(PreludeOf([]), items)) && RetainedHistory(items) == items
  {
    assert [] + items == items;
    SplitAtSeam([], items);
  }

  const SPELLED := [Said("a"), Said("b"), Said("now")]
  const REPRESENTATIVE := [Said("representative")]

  lemma SpellingsAreHistory()
    ensures SplitRequestPrelude(SPELLED) == Some(Split(PreludeOf([]), SPELLED)) && RetainedHistory(SPELLED) == SPELLED
    ensures RetainedHistory(REPRESENTATIVE) == REPRESENTATIVE
  {
    HistoryAlone(REPRESENTATIVE);
    HistoryAlone(SPELLED);
  }

  lemma Replaced(stored: Checkpoint, committed: Checkpoint, id: string, now: Time)
    requires committed == PlainCheckpoint(id, SPELLED) && SplitRequestPrelude(SPELLED).Some?
    requires |RetainedHistory(SPELLED)| >= 2
    requires stored == Settled(committed, now, Reused(REPRESENTATIVE, 2))
    ensures stored.request.items == [Said("representative"), Said("now")] && stored.request != committed.request
  {
    SpellingsAreHistory();
    assert SPELLED[2..] == [Said("now")];
  }

  // A stored checkpoint can differ from the committed one: three items go in
  // under a fingerprint already represented by one item for its first two, and
  // two come out.
  method SpellingIsReplaced(workspace: string, history: History, x: string, y: string, now: Time)
    returns (store: MemoryStore, key: RecordId, committed: Checkpoint)
    requires !Blank(workspace) && !Blank(x) && !Blank(y) && x != y
    ensures store.Valid() && key in store.Contents()
    ensures committed.request.items == [Said("a"), Said("b"), Said("now")]
    ensures store.Contents()[key].request.items == [Said("representative"), Said("now")]
    ensures !StoredAsCommitted(store.Contents()[key], committed, now)
  {
    var represented := PlainCheckpoint(x, REPRESENTATIVE);
    committed := PlainCheckpoint(y, SPELLED);
    PlainIsAdmissible(workspace, x, REPRESENTATIVE, 1, now);
    PlainIsAdmissible(workspace, y, SPELLED, 2, now);
    var first;
    store, first, key := PutTwice(workspace, history, represented, 1, committed, 2, now);
    assert RetainedHistory(represented.request.items)[..1] == REPRESENTATIVE by {
      SpellingsAreHistory();
    }
    Replaced(store.Contents()[key], committed, y, now);
  }
}
