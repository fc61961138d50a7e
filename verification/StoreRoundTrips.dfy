// What a caller of the store gets back for what it put, told without the store's
// own functions: which puts are accepted, until when they are found, and with
// which fields.
module StoreRoundTrips {
  import opened Wrappers
  import opened Text
  import opened Canonical
  import opened CheckpointStore

  // ------------------------------------------------------------ what is accepted

  predicate Named(s: string) {
    exists i :: 0 <= i < |s| && !IsSpace(s[i])
  }

  lemma NamedIsNotBlank(s: string)
    ensures Named(s) <==> !Blank(s)
  {
    BlankIsAllSpace(s);
  }

  predicate Bound(handle: Option<Handle>) {
    handle.Some? ==> Named(handle.value.providerId) && Named(handle.value.targetId) && handle.value.targetVersion > 0
  }

  // A response that can be resumed from: it has an identity, and at most one
  // provider handle, which names its target generation.
  predicate Resumable(ref: ResponseRef) {
    && Named(ref.swobuId) && Bound(ref.responses) && Bound(ref.interactions)
    && (ref.responses.None? || ref.interactions.None?)
  }

  lemma ResumableIsCommitted(ref: ResponseRef)
    ensures Resumable(ref) <==> CommittedRef(ref)
  {
    NamedIsNotBlank(ref.swobuId);
    if ref.responses.Some? {
      NamedIsNotBlank(ref.responses.value.providerId);
      NamedIsNotBlank(ref.responses.value.targetId);
    }
    if ref.interactions.Some? {
      NamedIsNotBlank(ref.interactions.value.providerId);
      NamedIsNotBlank(ref.interactions.value.targetId);
    }
  }

  // Request-scoped items first, messages and declarations not interleaved, then
  // history.
  ghost predicate LaidOut(items: seq<Item>) {
    exists first: seq<Item>, second: seq<Item>, history: seq<Item>, message: bool ::
      && items == first + second + history
      && AllScoped(first + second) && NoneScoped(history)
      && AllOfBand(first, message) && AllOfBand(second, !message)
  }

  lemma LaidOutSplits(items: seq<Item>)
    ensures LaidOut(items) <==> SplitRequestPrelude(items).Some?
  {
    if SplitRequestPrelude(items).Some? {
      var split := SplitRequestPrelude(items).value;
      PreludeIsItsBands(split.prelude.items);
      BandsLayOut(items, split.prelude, split.history);
    }
    if first: seq<Item>, second: seq<Item>, history: seq<Item>, message: bool :|
       && items == first + second + history && AllScoped(first + second) && NoneScoped(history)
       && AllOfBand(first, message) && AllOfBand(second, !message)
    {
      BandsMakePrelude(first, second, message);
      SplitAtSeam(first + second, history);
    }
  }

  lemma BandsLayOut(items: seq<Item>, prelude: Prelude, history: seq<Item>)
    requires items == prelude.items + history && prelude == PreludeOf(prelude.items) && prelude.items == Bands(prelude)
    requires AllScoped(prelude.items) && NoneScoped(history)
    ensures LaidOut(items)
  {
    var first := if prelude.toolsFirst then prelude.declarations else prelude.directives;
    var second := if prelude.toolsFirst then prelude.directives else prelude.declarations;
    assert AllOfBand(first, !prelude.toolsFirst) && AllOfBand(second, !!prelude.toolsFirst);
    assert items == first + second + history;
  }

  // The evidence fits the history it comes with: a token of this store and
  // workspace no longer than it, or a fingerprint with a prefix length inside it,
  // or neither.
  predicate Fits(reuse: StorageReuse, store: MemoryStore, workspace: string, retained: nat) {
    match reuse.token
    case Some(token) =>
      && reuse.history.None? && reuse.prefixLength == 0
      && token.Token? && token.store == store && token.workspace == workspace
      && (token.tail != null ==> token.tail.length <= retained)
    case None => reuse.history.Some? ==> 0 <= reuse.prefixLength <= retained
  }

  // The workspace and the response have names, the fingerprint has a scheme, the
  // deadline lies ahead, the identity is free, the request is laid out and the
  // evidence fits.
  ghost predicate Acceptable(
    store: MemoryStore, workspace: string, commit: Commit, preparedAt: Time, checkedAt: Time, live: Plain)
  {
    && Named(workspace) && Resumable(commit.checkpoint.response.ref)
    && (commit.checkpoint.history.Some? ==> commit.checkpoint.history.value.scheme != "")
    && checkedAt < CommittedDeadline(commit.checkpoint, preparedAt)
    && RecordId(TrimSpace(workspace), commit.checkpoint.response.ref.swobuId) !in live
    && LaidOut(commit.checkpoint.request.items)
    && Fits(commit.reuse, store, TrimSpace(workspace), |RetainedHistory(commit.checkpoint.request.items)|)
  }

  // A put passes every check exactly when it is acceptable.
  lemma AcceptedExactlyWhen(
    store: MemoryStore, workspace: string, commit: Commit, preparedAt: Time, checkedAt: Time, live: Plain)
    ensures && EarlyRefusal(workspace, commit.checkpoint, preparedAt, checkedAt).None?
            && LateRefusal(TrimSpace(workspace), commit, store, live).None?
       <==> Acceptable(store, workspace, commit, preparedAt, checkedAt, live)
  {
    NamedIsNotBlank(workspace);
    ResumableIsCommitted(commit.checkpoint.response.ref);
    LaidOutSplits(commit.checkpoint.request.items);
  }

  // --------------------------------------------------------- what comes back out

  lemma EarlyPasses(workspace: string, checkpoint: Checkpoint, preparedAt: Time, checkedAt: Time)
    ensures EarlyRefusal(workspace, checkpoint, preparedAt, checkedAt).None? ==>
              && !Blank(workspace)
              && (checkpoint.history.Some? ==> checkpoint.history.value.scheme != "")
  {
  }

  // A put, told on the plain map alone.
  method PutPlainly(
    store: MemoryStore, workspace: string, commit: Commit, preparedAt: Time, checkedAt: Time, putAt: Time)
    returns (r: Result<RecordId, StoreError>, ghost room: Plain)
    requires store.Valid() && Minted(commit.reuse, store) && WellFormedResponse(commit.checkpoint.response)
    modifies store
    ensures store.Valid()
    ensures r.Ok? <==>
            Acceptable(store, workspace, commit, preparedAt, checkedAt, Live(old(store.Contents()), putAt))
    ensures r.Ok? ==>
              && !Blank(workspace) && (commit.checkpoint.history.Some? ==> commit.checkpoint.history.value.scheme != "")
              && r.value == RecordId(TrimSpace(workspace), commit.checkpoint.response.ref.swobuId)
              && MakesRoom(Live(old(store.Contents()), putAt), room)
              && r.value in store.Contents() && store.Contents() == room[r.value := store.Contents()[r.value]]
              && CarriedOver(store.Contents()[r.value], commit.checkpoint, preparedAt)
              && (commit.reuse == NO_REUSE ==>
                    StoredAsCommitted(store.Contents()[r.value], commit.checkpoint, preparedAt))
  {
    EarlyPasses(workspace, commit.checkpoint, preparedAt, checkedAt);
    AcceptedExactlyWhen(store, workspace, commit, preparedAt, checkedAt, Live(store.Contents(), putAt));
    ghost var held, reused;
    room := map[];
    r, held, reused := store.Put(workspace, commit, preparedAt, checkedAt, putAt);
    if r.Ok? {
      room := ContentsOf(held);
    }
  }

  // Put, then look up by identity under any spelling of the same workspace: found
  // exactly before the deadline, with the committed fields.
  method PutThenGet(
    store: MemoryStore, workspace: string, commit: Commit, preparedAt: Time, checkedAt: Time, putAt: Time,
    again: string, getAt: Time)
    returns (r: Result<RecordId, StoreError>, found: Result<Option<Checkpoint>, StoreError>)
    requires store.Valid() && Minted(commit.reuse, store) && WellFormedResponse(commit.checkpoint.response)
    requires TrimSpace(again) == TrimSpace(workspace)
    modifies store
    ensures store.Valid()
    ensures r.Ok? <==>
            Acceptable(store, workspace, commit, preparedAt, checkedAt, Live(old(store.Contents()), putAt))
    ensures r.Ok? ==>
              && found.Ok?
              && (found.value.Some? <==> getAt < CommittedDeadline(commit.checkpoint, preparedAt))
              && (found.value.Some? ==>
                    && CarriedOver(Erased(found.value.value), commit.checkpoint, preparedAt)
                    && (commit.reuse == NO_REUSE ==>
                          StoredAsCommitted(Erased(found.value.value), commit.checkpoint, preparedAt)))
  {
    ghost var room;
    r, room := PutPlainly(store, workspace, commit, preparedAt, checkedAt, putAt);
    found := store.Get(again, commit.checkpoint.response.ref.swobuId, getAt);
  }

  ghost predicate Carries(plain: Plain, key: RecordId, history: HistoryKey) {
    key in plain && key.workspace == history.workspace && plain[key].history == Some(history.history)
  }

  // Whatever of the workspace carries the fingerprint has expired at one of the
  // two instants.
  ghost predicate NoLiveCarrier(plain: Plain, history: HistoryKey, now: Time, later: Time) {
    forall k :: Carries(plain, k, history) ==>
      plain[k].expiresAt.Some? && (plain[k].expiresAt.value <= now || plain[k].expiresAt.value <= later)
  }

  // After the put the new checkpoint is the only carrier that can be live.
  lemma CarriedAlone(
    before: Plain, now: Time, room: Plain, key: RecordId, stored: Checkpoint, after: Plain, history: HistoryKey, later: Time)
    requires MakesRoom(Live(before, now), room) && after == room[key := stored]
    requires NoLiveCarrier(before, history, now, later)
    requires key.workspace == history.workspace && stored.history == Some(history.history)
    ensures Carriers(Live(after, later), history) == if Expired(stored, later) then {} else {key}
  {
    forall k | Carries(after, k, history) && k != key
      ensures Expired(after[k], later)
    {
      assert Carries(before, k, history) && !Expired(before[k], now);
    }
    forall k | k in Carriers(Live(after, later), history)
      ensures k == key && !Expired(stored, later)
    {
      assert Carries(after, k, history);
    }
  }

  lemma FoundAlone(answer: Option<Checkpoint>, live: Plain, history: HistoryKey, key: RecordId, stored: Checkpoint, gone: bool)
    requires AnswersUniquely(answer, live, history)
    requires Carriers(live, history) == if gone then {} else {key}
    requires !gone ==> key in live && live[key] == stored
    ensures answer.Some? <==> !gone
    ensures answer.Some? ==> Erased(answer.value) == stored
  {
    forall k | Carriers(live, history) == {k}
      ensures !gone && k == key
    {
      assert k in Carriers(live, history);
    }
  }

  // A lookup of a fingerprint that only one checkpoint can answer.
  method FindAlone(store: MemoryStore, workspace: string, history: History, ghost key: RecordId, now: Time)
    returns (found: Result<Option<Checkpoint>, StoreError>)
    requires store.Valid() && !Blank(workspace) && history.scheme != "" && key in store.Contents()
    requires Carriers(Live(store.Contents(), now), HistoryKey(TrimSpace(workspace), history))
          == if Expired(store.Contents()[key], now) then {} else {key}
    modifies store
    ensures store.Valid() && found.Ok?
    ensures found.value.Some? <==> !Expired(old(store.Contents())[key], now)
    ensures found.value.Some? ==> Erased(found.value.value) == old(store.Contents())[key]
  {
    ghost var stored := store.Contents()[key];
    found := store.FindByHistory(workspace, history, now);
    FoundAlone(found.value, store.Contents(), HistoryKey(TrimSpace(workspace), history), key, stored, Expired(stored, now));
  }

  method PutAlone(
    store: MemoryStore, workspace: string, commit: Commit, preparedAt: Time, checkedAt: Time, putAt: Time,
    history: History, later: Time)
    returns (r: Result<RecordId, StoreError>)
    requires store.Valid() && Minted(commit.reuse, store) && WellFormedResponse(commit.checkpoint.response)
    requires commit.checkpoint.history == Some(history)
    requires NoLiveCarrier(store.Contents(), HistoryKey(TrimSpace(workspace), history), putAt, later)
    modifies store
    ensures store.Valid()
    ensures r.Ok? ==>
              && !Blank(workspace) && history.scheme != "" && r.value in store.Contents()
              && CarriedOver(store.Contents()[r.value], commit.checkpoint, preparedAt)
              && (commit.reuse == NO_REUSE ==>
                    StoredAsCommitted(store.Contents()[r.value], commit.checkpoint, preparedAt))
              && Carriers(Live(store.Contents(), later), HistoryKey(TrimSpace(workspace), history))
                 == if Expired(store.Contents()[r.value], later) then {} else {r.value}
  {
    ghost var before, room := store.Contents(), map[];
    r, room := PutPlainly(store, workspace, commit, preparedAt, checkedAt, putAt);
    if r.Ok? {
      CarriedAlone(before, putAt, room, r.value, store.Contents()[r.value], store.Contents(),
                   HistoryKey(TrimSpace(workspace), history), later);
    }
  }

  // Put, then look up by fingerprint: with no other live carrier the checkpoint
  // is found until its deadline, under its own fingerprint; past it, never.
  method PutThenFind(
    store: MemoryStore, workspace: string, commit: Commit, preparedAt: Time, checkedAt: Time, putAt: Time,
    history: History, findAt: Time)
    returns (r: Result<RecordId, StoreError>, found: Result<Option<Checkpoint>, StoreError>)
    requires store.Valid() && Minted(commit.reuse, store) && WellFormedResponse(commit.checkpoint.response)
    requires commit.checkpoint.history == Some(history)
    requires NoLiveCarrier(store.Contents(), HistoryKey(TrimSpace(workspace), history), putAt, findAt)
    modifies store
    ensures store.Valid()
    ensures r.Ok? ==>
              && found.Ok?
              && (found.value.Some? <==> findAt < CommittedDeadline(commit.checkpoint, preparedAt))
              && (found.value.Some? ==>
                    && found.value.value.history == Some(history)
                    && CarriedOver(Erased(found.value.value), commit.checkpoint, preparedAt)
                    && (commit.reuse == NO_REUSE ==>
                          StoredAsCommitted(Erased(found.value.value), commit.checkpoint, preparedAt)))
  {
    r := PutAlone(store, workspace, commit, preparedAt, checkedAt, putAt, history, findAt);
    found := Ok(None);
    if r.Ok? {
      found := FindAlone(store, workspace, history, r.value, findAt);
    }
  }
}
