// The in-memory checkpoint store (internal/continuity/store_memory.go).
//
// Checkpoints are logically self-contained; physically they share history
// prefixes through immutable parent-linked segments. The class below keeps the
// source's four structures (records, the history index, the non-owning
// visible-history index and the expiry heap) and is proved to behave like a
// plain map of whole checkpoints.
module CheckpointStore {
  import opened Wrappers
  import opened Text
  import opened Canonical

  const MAX_RECORDS: nat := 1024

  // Nanoseconds since an arbitrary origin.
  type Time = int

  const DEFAULT_TTL: Time := 24 * 3600 * 1_000_000_000

  datatype History = History(scheme: string, digest: string)

  datatype RecordId = RecordId(workspace: string, id: string)

  datatype HistoryKey = HistoryKey(workspace: string, history: History)

  // ---------------------------------------------------------------- segments

  // Private physical storage: an immutable run of items behind a parent run.
  class Segment {
    const parent: Segment?
    const items: seq<Item>
    const length: nat

    constructor (parent: Segment?, items: seq<Item>)
      requires items != []
      requires parent != null ==> parent.Linked()
      ensures this.parent == parent && this.items == items
      ensures Linked()
    {
      this.parent := parent;
      this.items := items;
      this.length := |items| + (if parent == null then 0 else parent.length);
    }

    // The cached length counts every item up the chain, which also makes
    // chains acyclic.
    ghost predicate Linked()
      decreases length
    {
      && items != []
      && (if parent == null then length == |items|
          else length == parent.length + |items| && parent.Linked())
    }
  }

  ghost predicate LinkedTail(tail: Segment?) {
    tail != null ==> tail.Linked()
  }

  ghost function TailLength(tail: Segment?): nat {
    if tail == null then 0 else tail.length
  }

  // The item sequence a tail stands for.
  ghost function Flatten(tail: Segment?): (items: seq<Item>)
    requires LinkedTail(tail)
    ensures |items| == TailLength(tail)
    decreases TailLength(tail)
  {
    if tail == null then [] else Flatten(tail.parent) + tail.items
  }

  // The segment lies on the parent chain that starts at tail.
  ghost predicate OnChain(segment: Segment, tail: Segment?)
    requires LinkedTail(tail)
    decreases TailLength(tail)
  {
    tail != null && (segment == tail || OnChain(segment, tail.parent))
  }

  lemma {:induction false} OnChainLinked(segment: Segment, tail: Segment?)
    requires LinkedTail(tail) && OnChain(segment, tail)
    ensures segment.Linked()
    ensures Flatten(segment) <= Flatten(tail)
    decreases TailLength(tail)
  {
    if segment != tail {
      OnChainLinked(segment, tail.parent);
      assert Flatten(tail.parent) <= Flatten(tail);
    }
  }

  // ------------------------------------------------------------- checkpoints

  // Sealed evidence that a stored tail may be extended. A token of another
  // backend is ForeignToken.
  datatype Token = ForeignToken | Token(store: MemoryStore, workspace: string, tail: Segment?)

  datatype StorageReuse = StorageReuse(token: Option<Token>, history: Option<History>, prefixLength: int)

  const NO_REUSE := StorageReuse(None, None, 0)

  datatype Checkpoint = Checkpoint(
    history: Option<History>,
    affinity: string,
    request: Request,
    response: Response,
    createdAt: Time,
    expiresAt: Option<Time>,
    reuse: StorageReuse
  )

  function ReuseCheckpoint(checkpoint: Checkpoint): StorageReuse {
    checkpoint.reuse
  }

  function ReuseVisibleHistory(history: History, prefixLength: int): StorageReuse {
    StorageReuse(None, Some(history), prefixLength)
  }

  // A checkpoint without its storage-only token: the value a client sees.
  function Erased(checkpoint: Checkpoint): Checkpoint {
    checkpoint.(reuse := NO_REUSE)
  }

  datatype Commit = Commit(checkpoint: Checkpoint, reuse: StorageReuse)

  datatype Stored = Stored(checkpoint: Checkpoint, prelude: seq<Item>, requestTail: Segment?, afterTail: Segment?)

  datatype Expiration = Expiration(key: RecordId, at: Time)

  datatype StoreError =
    | WorkspaceEmpty
    | HistoryInvalid
    | ResponseInvalid
    | ExpirationNotInFuture
    | CheckpointExists
    | RequestLayout
    | ReuseContradictory
    | ReuseOtherStore
    | ReuseOtherWorkspace
    | ReuseExceedsHistory
    | ReusePrefixInvalid

  // ---------------------------------------------------- the plain-map contract

  // What the store promises to be: a map of whole checkpoints.
  type Plain = map<RecordId, Checkpoint>

  // ExpiresAt is not after now.
  predicate Expired(checkpoint: Checkpoint, now: Time) {
    checkpoint.expiresAt.Some? && checkpoint.expiresAt.value <= now
  }

  ghost function Live(plain: Plain, now: Time): Plain {
    map k | k in plain && !Expired(plain[k], now) :: plain[k]
  }

  ghost function Carriers(plain: Plain, key: HistoryKey): set<RecordId> {
    set k | k in plain && k.workspace == key.workspace && plain[k].history == Some(key.history)
  }

  ghost predicate LeastExpiry(plain: Plain, victim: RecordId) {
    && victim in plain && plain[victim].expiresAt.Some?
    && forall k :: k in plain && plain[k].expiresAt.Some? ==>
         plain[victim].expiresAt.value <= plain[k].expiresAt.value
  }

  // Room for one more record: at capacity a record of least expiry goes.
  ghost predicate MakesRoom(before: Plain, after: Plain) {
    if |before| >= MAX_RECORDS then exists victim :: LeastExpiry(before, victim) && after == before - {victim}
    else after == before
  }

  function Prepared(checkpoint: Checkpoint, now: Time): Checkpoint {
    checkpoint.(
      expiresAt := if checkpoint.expiresAt.None? then Some(now + DEFAULT_TTL) else checkpoint.expiresAt,
      reuse := NO_REUSE)
  }

  // The deadline a put gives its checkpoint: its own, or a day after it was
  // prepared.
  function CommittedDeadline(committed: Checkpoint, preparedAt: Time): Time {
    if committed.expiresAt.Some? then committed.expiresAt.value else preparedAt + 86_400_000_000_000
  }

  // The committed checkpoint field by field, with these request items and its
  // deadline filled in.
  function AsCommitted(committed: Checkpoint, preparedAt: Time, items: seq<Item>): Checkpoint {
    Checkpoint(
      committed.history,
      committed.affinity,
      Request(committed.request.model, items, committed.request.previous, committed.request.controls),
      committed.response,
      committed.createdAt,
      Some(CommittedDeadline(committed, preparedAt)),
      NO_REUSE)
  }

  // Everything of a stored checkpoint but its request items is the committed one's.
  predicate CarriedOver(stored: Checkpoint, committed: Checkpoint, preparedAt: Time) {
    stored == AsCommitted(committed, preparedAt, stored.request.items)
  }

  predicate StoredAsCommitted(stored: Checkpoint, committed: Checkpoint, preparedAt: Time) {
    stored == AsCommitted(committed, preparedAt, committed.request.items)
  }

  function NormalizeWorkspace(workspace: string): (r: Result<string, StoreError>)
    ensures r.Ok? <==> !Blank(workspace)
  {
    if TrimSpace(workspace) == "" then Err(WorkspaceEmpty) else Ok(TrimSpace(workspace))
  }

  // ------------------------------------------------------------- the structure

  ghost predicate RecordShape(stored: Stored) {
    && LinkedTail(stored.requestTail)
    && LinkedTail(stored.afterTail)
    && Flatten(stored.afterTail) == Flatten(stored.requestTail) + stored.checkpoint.response.items
    && stored.checkpoint.request.items == []
    && stored.checkpoint.expiresAt.Some?
    && AllScoped(stored.prelude)
    && NoneScoped(Flatten(stored.requestTail))
    && WellFormedResponse(stored.checkpoint.response)
  }

  // The whole checkpoint a stored record denotes.
  ghost function Denoted(stored: Stored): Checkpoint
    requires RecordShape(stored)
  {
    stored.checkpoint.(request :=
      WithItems(stored.checkpoint.request, stored.prelude + Flatten(stored.requestTail)))
  }

  ghost function ContentsOf(records: map<RecordId, Stored>): Plain
    requires ShapesHold(records)
  {
    map k | k in records :: Erased(Denoted(records[k]))
  }

  ghost predicate HeapMatches(expires: multiset<Expiration>, records: map<RecordId, Stored>) {
    && (forall e :: e in expires ==>
          && expires[e] == 1
          && e.key in records
          && records[e.key].checkpoint.expiresAt == Some(e.at))
    && (forall k :: k in records && records[k].checkpoint.expiresAt.Some? ==>
          Expiration(k, records[k].checkpoint.expiresAt.value) in expires)
  }

  ghost predicate IndexMatches(byHistory: map<HistoryKey, set<string>>, records: map<RecordId, Stored>) {
    && (forall h :: h in byHistory ==> byHistory[h] != {})
    && (forall h, id :: h in byHistory && id in byHistory[h] ==>
          && RecordId(h.workspace, id) in records
          && records[RecordId(h.workspace, id)].checkpoint.history == Some(h.history))
    && (forall k :: k in records && records[k].checkpoint.history.Some? ==>
          && HistoryKey(k.workspace, records[k].checkpoint.history.value) in byHistory
          && k.id in byHistory[HistoryKey(k.workspace, records[k].checkpoint.history.value)])
  }

  ghost predicate ShapesHold(records: map<RecordId, Stored>) {
    forall k :: k in records ==> RecordShape(records[k])
  }

  // Some live record's chain passes through the segment.
  ghost predicate Reachable(segment: Segment, records: map<RecordId, Stored>)
    requires ShapesHold(records)
  {
    exists k :: k in records && OnChain(segment, records[k].afterTail)
  }

  ghost predicate TokensMatch(records: map<RecordId, Stored>, store: MemoryStore) {
    forall k :: k in records ==>
      records[k].checkpoint.reuse == StorageReuse(Some(Token(store, k.workspace, records[k].afterTail)), None, 0)
  }

  ghost predicate TailsHold(visible: map<HistoryKey, Segment?>) {
    forall h :: h in visible && visible[h] != null ==> visible[h].Linked() && NoneScoped(Flatten(visible[h]))
  }

  ghost function RepresentativesOf(visible: map<HistoryKey, Segment?>): map<HistoryKey, seq<Item>>
    requires TailsHold(visible)
  {
    map h | h in visible && visible[h] != null :: Flatten(visible[h])
  }

  // What a sweep keeps: the entries whose tail some live record reaches.
  ghost function Swept(visible: map<HistoryKey, Segment?>, records: map<RecordId, Stored>): map<HistoryKey, Segment?>
    requires ShapesHold(records)
  {
    map h | h in visible && visible[h] != null && Reachable(visible[h], records) :: visible[h]
  }

  ghost predicate TailsReachable(visible: map<HistoryKey, Segment?>, records: map<RecordId, Stored>)
    requires ShapesHold(records)
  {
    forall h :: h in visible && visible[h] != null ==> Reachable(visible[h], records)
  }

  // Everything the structures owe each other except reachability of the
  // visible-history index.
  ghost predicate Consistent(
    records: map<RecordId, Stored>, byHistory: map<HistoryKey, set<string>>,
    expires: multiset<Expiration>, store: MemoryStore)
  {
    && ShapesHold(records)
    && TokensMatch(records, store)
    && HeapMatches(expires, records)
    && IndexMatches(byHistory, records)
    && |records| <= MAX_RECORDS
  }

  // Only a store mints its own tokens, and it mints them for linked tails that
  // hold history items only.
  ghost predicate Minted(reuse: StorageReuse, store: MemoryStore) {
    reuse.token.Some? && reuse.token.value.Token? && reuse.token.value.store == store ==>
      LinkedTail(reuse.token.value.tail) && NoneScoped(Flatten(reuse.token.value.tail))
  }

  // What a segment-sharing put substitutes for the start of the retained
  // history, and how much of that history it stands in for.
  datatype Reused = Reused(items: seq<Item>, covers: nat)

  ghost predicate ExactReuse(reused: Reused, retained: seq<Item>) {
    reused.covers <= |retained| && reused.items == retained[..reused.covers]
  }

  // Why the evidence is refused, in the order the checks run.
  function ReuseRefusal(reuse: StorageReuse, store: MemoryStore, workspace: string, retained: seq<Item>)
    : Option<StoreError>
  {
    if reuse.token.Some? then
      if reuse.history.Some? || reuse.prefixLength != 0 then Some(ReuseContradictory)
      else if reuse.token.value.ForeignToken? || reuse.token.value.store != store then Some(ReuseOtherStore)
      else if reuse.token.value.workspace != workspace then Some(ReuseOtherWorkspace)
      else if reuse.token.value.tail != null && reuse.token.value.tail.length > |retained| then Some(ReuseExceedsHistory)
      else None
    else if reuse.history.Some? && !(0 <= reuse.prefixLength <= |retained|) then Some(ReusePrefixInvalid)
    else None
  }

  // What admitted evidence stands for: a token its tail, a fingerprint the
  // representative on file or else the declared prefix itself.
  ghost function ReusedBy(
    reuse: StorageReuse, store: MemoryStore, workspace: string, retained: seq<Item>,
    representatives: map<HistoryKey, seq<Item>>): (reused: Reused)
    requires Minted(reuse, store) && ReuseRefusal(reuse, store, workspace, retained).None?
    ensures reused.covers <= |retained|
  {
    if reuse.token.Some? then
      var items := Flatten(reuse.token.value.tail);
      Reused(items, |items|)
    else if reuse.history.Some? then
      var key := HistoryKey(workspace, reuse.history.value);
      Reused(if key in representatives then representatives[key] else retained[..reuse.prefixLength], reuse.prefixLength)
    else Reused([], 0)
  }

  // The checkpoint a put leaves behind: the committed one, deadline filled in,
  // with the reused items standing for the part of the history they cover.
  ghost function Settled(checkpoint: Checkpoint, preparedAt: Time, reused: Reused): Checkpoint
    requires SplitRequestPrelude(checkpoint.request.items).Some?
    requires reused.covers <= |RetainedHistory(checkpoint.request.items)|
  {
    var split := SplitRequestPrelude(checkpoint.request.items).value;
    Prepared(checkpoint, preparedAt).(request :=
      WithItems(checkpoint.request,
        split.prelude.items + (reused.items + RetainedHistory(checkpoint.request.items)[reused.covers..])))
  }

  // What a put stores, on the committed checkpoint's own fields: everything but
  // the request items is carried over, and they are too exactly when the evidence
  // denotes a true prefix of the retained history.
  lemma VerbatimIffExact(checkpoint: Checkpoint, preparedAt: Time, reused: Reused)
    requires SplitRequestPrelude(checkpoint.request.items).Some?
    requires reused.covers <= |RetainedHistory(checkpoint.request.items)|
    ensures CarriedOver(Settled(checkpoint, preparedAt, reused), checkpoint, preparedAt)
    ensures StoredAsCommitted(Settled(checkpoint, preparedAt, reused), checkpoint, preparedAt)
       <==> ExactReuse(reused, RetainedHistory(checkpoint.request.items))
  {
    var items := checkpoint.request.items;
    var split := SplitRequestPrelude(items).value;
    var retained := RetainedHistory(items);
    SplitRetains(items);
    var rest := retained[reused.covers..];
    var stored := split.prelude.items + (reused.items + rest);
    assert retained == retained[..reused.covers] + rest;
    if stored == items {
      assert stored[|split.prelude.items|..] == reused.items + rest;
      assert items[|split.prelude.items|..] == retained;
      assert |reused.items| == reused.covers;
      assert (reused.items + rest)[..reused.covers] == reused.items;
    }
  }

  // Checks made before the lock is taken, and so before anything is reclaimed.
  function EarlyRefusal(workspace: string, checkpoint: Checkpoint, preparedAt: Time, checkedAt: Time)
    : Option<StoreError>
  {
    if Blank(workspace) then Some(WorkspaceEmpty)
    else if !CommittedRef(checkpoint.response.ref) then Some(ResponseInvalid)
    else if checkpoint.history.Some? && checkpoint.history.value.scheme == "" then Some(HistoryInvalid)
    else if Expired(Prepared(checkpoint, preparedAt), checkedAt) then Some(ExpirationNotInFuture)
    else None
  }

  // Checks made under the lock, against what is still live.
  ghost function LateRefusal(workspace: string, commit: Commit, store: MemoryStore, live: Plain): Option<StoreError> {
    var items := commit.checkpoint.request.items;
    if RecordId(workspace, commit.checkpoint.response.ref.swobuId) in live then Some(CheckpointExists)
    else if SplitRequestPrelude(items).None? then Some(RequestLayout)
    else ReuseRefusal(commit.reuse, store, workspace, RetainedHistory(items))
  }

  class MemoryStore {
    var records: map<RecordId, Stored>
    var byHistory: map<HistoryKey, set<string>>
    var visibleHistory: map<HistoryKey, Segment?>
    var expires: multiset<Expiration>

    ghost predicate Core()
      reads this
    {
      Consistent(records, byHistory, expires, this) && TailsHold(visibleHistory)
    }

    ghost predicate Valid()
      reads this
    {
      Core() && TailsReachable(visibleHistory, records)
    }

    // The plain map the store stands for, tokens erased.
    ghost function Contents(): Plain
      requires ShapesHold(records)
      reads this
    {
      ContentsOf(records)
    }

    // The visible-history index as plain item sequences.
    ghost function Representatives(): map<HistoryKey, seq<Item>>
      requires Core()
      reads this
    {
      RepresentativesOf(visibleHistory)
    }

    constructor ()
      ensures Valid() && Contents() == map[] && Representatives() == map[]
    {
      records := map[];
      byHistory := map[];
      visibleHistory := map[];
      expires := multiset{};
    }

    // ------------------------------------------------------------ maintenance

    method DeleteRecord(key: RecordId)
      requires key in records
      requires records[key].checkpoint.history.Some? ==>
                 HistoryKey(key.workspace, records[key].checkpoint.history.value) in byHistory
      modifies `records, `byHistory
      ensures records == old(records) - {key}
      ensures byHistory == IndexWithout(old(byHistory), key, old(records)[key].checkpoint.history)
    {
      var history := records[key].checkpoint.history;
      records := records - {key};
      if history.None? {
        return;
      }
      var historyKey := HistoryKey(key.workspace, history.value);
      byHistory := byHistory[historyKey := byHistory[historyKey] - {key.id}];
      if byHistory[historyKey] == {} {
        byHistory := byHistory - {historyKey};
      }
    }

    // Keeps exactly the entries whose tail some live record still reaches. The
    // inner walk stops at the first segment already collected.
    method SweepVisibleHistory()
      requires Core()
      modifies `visibleHistory
      ensures Valid()
      ensures visibleHistory == Swept(old(visibleHistory), records)
    {
      var swept := SweepTails(visibleHistory, records);
      SweptHolds(visibleHistory, records);
      visibleHistory := swept;
    }

    // Pops one heap entry together with the record it stands for. The guard is
    // the source's stale-entry check; HeapMatches says it never fails.
    method RemoveEntry(entry: Expiration)
      requires EntryMatches(records, byHistory, entry)
      modifies `records, `byHistory, `expires
      ensures expires == old(expires) - multiset{entry}
      ensures records == old(records) - {entry.key}
      ensures byHistory == IndexWithout(old(byHistory), entry.key, old(records)[entry.key].checkpoint.history)
    {
      expires := expires - multiset{entry};
      if entry.key in records && records[entry.key].checkpoint.expiresAt == Some(entry.at) {
        DeleteRecord(entry.key);
      }
    }

    // Pops and deletes while the least deadline has passed.
    method DrainExpired(now: Time) returns (deleted: bool)
      requires Consistent(records, byHistory, expires, this)
      modifies `records, `byHistory, `expires
      ensures Consistent(records, byHistory, expires, this)
      ensures records == LiveRecords(old(records), now)
      ensures !deleted ==> records == old(records)
    {
      deleted := false;
      while expires != multiset{}
        invariant Consistent(records, byHistory, expires, this)
        invariant RemovedOnlyExpired(old(records), records, now)
        invariant !deleted ==> records == old(records)
        decreases |expires|
      {
        LeastExists(expires);
        var entry :| entry in expires && forall e :: e in expires ==> entry.at <= e.at;
        if entry.at > now {
          break;
        }
        ConsistentWithout(records, byHistory, expires, this, entry);
        RemoveOneMore(old(records), records, entry.key, now);
        RemoveEntry(entry);
        deleted := true;
      }
      DrainedIsLive(old(records), records, expires, now);
    }

    // Removes what has expired by now, and nothing else.
    method ReclaimExpired(now: Time)
      requires Valid()
      modifies this
      ensures Valid()
      ensures records == LiveRecords(old(records), now)
      ensures Standing(visibleHistory, old(visibleHistory), records)
      ensures Representatives() == LiveRepresentatives(old(visibleHistory), old(records), now)
    {
      var deleted := DrainExpired(now);
      if deleted {
        SweepVisibleHistory();
      }
      StandingRepresents(visibleHistory, old(visibleHistory), records);
    }

    // Pops and deletes a record whose expiry is least.
    method PopOldest() returns (ghost victim: RecordId)
      requires Consistent(records, byHistory, expires, this) && records != map[]
      modifies `records, `byHistory, `expires
      ensures Consistent(records, byHistory, expires, this)
      ensures SoonestToExpire(old(records), victim)
      ensures records == old(records) - {victim}
    {
      HeapIsNonempty(expires, records);
      LeastExists(expires);
      var entry :| entry in expires && forall e :: e in expires ==> entry.at <= e.at;
      victim := entry.key;
      LeastEntryIsLeastRecord(expires, records, entry);
      ConsistentWithout(records, byHistory, expires, this, entry);
      RemoveEntry(entry);
    }

    // Removes one record whose expiry is least.
    method EvictOldest() returns (ghost victim: RecordId)
      requires Valid() && records != map[]
      modifies this
      ensures Valid()
      ensures SoonestToExpire(old(records), victim)
      ensures records == old(records) - {victim}
      ensures visibleHistory == Swept(old(visibleHistory), records)
    {
      victim := PopOldest();
      SweepVisibleHistory();
    }

    // -------------------------------------------------------------- operations

    method Get(workspace: string, id: string, now: Time) returns (r: Result<Option<Checkpoint>, StoreError>)
      requires Valid()
      modifies this
      ensures Valid()
      ensures Blank(workspace) ==>
                r == Err(WorkspaceEmpty) && Contents() == old(Contents()) && Representatives() == old(Representatives())
      ensures !Blank(workspace) ==>
                && Contents() == Live(old(Contents()), now)
                && Representatives() == LiveRepresentatives(old(visibleHistory), old(records), now)
                && r.Ok?
                && Answers(r.value, Contents(), RecordId(TrimSpace(workspace), id))
                && (r.value.Some? ==> ExtendsExactly(r.value.value, this, TrimSpace(workspace)))
    {
      var name := NormalizeWorkspace(workspace);
      if name.Err? {
        return Err(name.error);
      }
      LiveContents(records, now);
      ReclaimExpired(now);
      var key := RecordId(name.value, id);
      if key !in records {
        return Ok(None);
      }
      var checkpoint := Materialize(records[key]);
      DenotedExtends(records, key, this);
      return Ok(Some(checkpoint));
    }

    method FindByHistory(workspace: string, history: History, now: Time)
      returns (r: Result<Option<Checkpoint>, StoreError>)
      requires Valid()
      modifies this
      ensures Valid()
      ensures Blank(workspace) || history.scheme == "" ==>
                && r == Err(if Blank(workspace) then WorkspaceEmpty else HistoryInvalid)
                && Contents() == old(Contents()) && Representatives() == old(Representatives())
      ensures !Blank(workspace) && history.scheme != "" ==>
                && Contents() == Live(old(Contents()), now)
                && Representatives() == LiveRepresentatives(old(visibleHistory), old(records), now)
                && r.Ok?
                && AnswersUniquely(r.value, Contents(), HistoryKey(TrimSpace(workspace), history))
                && (r.value.Some? ==> ExtendsExactly(r.value.value, this, TrimSpace(workspace)))
    {
      var name := NormalizeWorkspace(workspace);
      if name.Err? {
        return Err(name.error);
      }
      if history.scheme == "" {
        return Err(HistoryInvalid);
      }
      LiveContents(records, now);
      ReclaimExpired(now);
      var key := HistoryKey(name.value, history);
      IndexAnswers(records, byHistory, key);
      if key !in byHistory || |byHistory[key]| != 1 {
        return Ok(None);
      }
      var id :| id in byHistory[key];
      var checkpoint := Materialize(records[RecordId(name.value, id)]);
      DenotedExtends(records, RecordId(name.value, id), this);
      return Ok(Some(checkpoint));
    }

    method ResolveStorageReuse(workspace: string, reuse: StorageReuse, retained: seq<Item>)
      returns (r: Result<Base, StoreError>)
      requires Core() && Minted(reuse, this) && NoneScoped(retained)
      ensures ReuseRefusal(reuse, this, workspace, retained).Some? ==>
                r == Err(ReuseRefusal(reuse, this, workspace, retained).value)
      ensures ReuseRefusal(reuse, this, workspace, retained).None? ==>
                && r.Ok?
                && LinkedTail(r.value.tail)
                && NoneScoped(Flatten(r.value.tail))
                && Reused(Flatten(r.value.tail), r.value.prefix)
                   == ReusedBy(reuse, this, workspace, retained, Representatives())
                && (r.value.visibleKey.Some? <==> reuse.token.None? && reuse.history.Some?)
                && (r.value.visibleKey.Some? ==> r.value.visibleKey.value == HistoryKey(workspace, reuse.history.value))
                && (r.value.tail == null ==> Unlisted(visibleHistory, r.value.visibleKey))
    {
      if reuse.token.Some? {
        if reuse.history.Some? || reuse.prefixLength != 0 {
          return Err(ReuseContradictory);
        }
        var token := reuse.token.value;
        if token.ForeignToken? || token.store != this {
          return Err(ReuseOtherStore);
        }
        if token.workspace != workspace {
          return Err(ReuseOtherWorkspace);
        }
        if token.tail == null {
          return Ok(Base(null, 0, None));
        }
        if token.tail.length > |retained| {
          return Err(ReuseExceedsHistory);
        }
        return Ok(Base(token.tail, token.tail.length, None));
      }
      if reuse.history.Some? {
        if reuse.prefixLength < 0 || reuse.prefixLength > |retained| {
          return Err(ReusePrefixInvalid);
        }
        var key := HistoryKey(workspace, reuse.history.value);
        var base := ResolveVisibleHistory(visibleHistory, key, reuse.prefixLength, retained);
        return Ok(base);
      }
      return Ok(Base(null, 0, None));
    }

    // The four structures change together.
    method Link(key: RecordId, stored: Stored, visibleKey: Option<HistoryKey>, base: Segment?)
      requires stored.checkpoint.expiresAt.Some?
      modifies this
      ensures records == old(records)[key := stored]
      ensures visibleHistory == VisibleWith(old(visibleHistory), visibleKey, base)
      ensures byHistory == IndexWith(old(byHistory), key, stored.checkpoint.history)
      ensures expires == old(expires) + multiset{Expiration(key, stored.checkpoint.expiresAt.value)}
    {
      records := records[key := stored];
      if visibleKey.Some? {
        visibleHistory := visibleHistory[visibleKey.value := base];
      }
      if stored.checkpoint.history.Some? {
        var historyKey := HistoryKey(key.workspace, stored.checkpoint.history.value);
        if historyKey !in byHistory {
          byHistory := byHistory[historyKey := {}];
        }
        byHistory := byHistory[historyKey := byHistory[historyKey] + {key.id}];
      }
      expires := expires + multiset{Expiration(key, stored.checkpoint.expiresAt.value)};
    }

    // Evicts one record when the store is full.
    method MakeRoom()
      requires Valid()
      modifies this
      ensures Valid()
      ensures MakesRoom(old(Contents()), Contents())
      ensures |records| < MAX_RECORDS
      ensures KeptFrom(records, old(records))
      ensures Standing(visibleHistory, old(visibleHistory), records)
    {
      ContentsSize(records);
      if |records| >= MAX_RECORDS {
        ghost var before := records;
        var victim := EvictOldest();
        VictimIsLeast(before, victim);
      }
    }

    method Insert(key: RecordId, stored: Stored, visibleKey: Option<HistoryKey>, base: Segment?)
      requires Valid() && key !in records && |records| < MAX_RECORDS
      requires RecordShape(stored) && TokenOf(stored, this, key)
      requires LinkedTail(base)
      requires base != null ==> NoneScoped(Flatten(base)) && OnChain(base, stored.afterTail)
      modifies this
      ensures Valid()
      ensures Contents() == old(Contents())[key := Erased(Denoted(stored))]
      ensures visibleHistory == VisibleWith(old(visibleHistory), visibleKey, base)
    {
      ConsistentWith(records, byHistory, expires, this, key, stored);
      ReachableWith(visibleHistory, records, key, stored, visibleKey, base);
      ContentsWith(records, key, stored);
      Link(key, stored, visibleKey, base);
    }

    // Evicts if need be, then links the record.
    method InsertWithRoom(key: RecordId, stored: Stored, visibleKey: Option<HistoryKey>, base: Segment?)
      returns (ghost held: map<RecordId, Stored>)
      requires Valid() && key !in records
      requires RecordShape(stored) && TokenOf(stored, this, key)
      requires LinkedTail(base)
      requires base != null ==> NoneScoped(Flatten(base)) && OnChain(base, stored.afterTail)
      requires base == null ==> Unlisted(visibleHistory, visibleKey)
      modifies this
      ensures Valid()
      ensures KeptFrom(held, old(records)) && MakesRoom(old(Contents()), ContentsOf(held))
      ensures Contents() == ContentsOf(held)[key := Erased(Denoted(stored))]
      ensures Representatives()
           == WithEntry(StandingRepresentatives(old(visibleHistory), held), visibleKey, Flatten(base))
    {
      MakeRoom();
      held := records;
      StandingRepresents(visibleHistory, old(visibleHistory), records);
      RepresentativesWith(visibleHistory, visibleKey, base);
      Insert(key, stored, visibleKey, base);
    }

    // Stores one immutable checkpoint. The clock is read while the record is
    // prepared, again when its deadline is checked, and under the lock. The
    // records still held when the new one goes in are returned for reasoning.
    method Put(workspace: string, commit: Commit, preparedAt: Time, checkedAt: Time, now: Time)
      returns (r: Result<RecordId, StoreError>, ghost held: map<RecordId, Stored>, ghost reused: Reused)
      requires Valid()
      requires Minted(commit.reuse, this) && WellFormedResponse(commit.checkpoint.response)
      modifies this
      ensures Valid()
      ensures EarlyRefusal(workspace, commit.checkpoint, preparedAt, checkedAt).Some? ==>
                && r == Err(EarlyRefusal(workspace, commit.checkpoint, preparedAt, checkedAt).value)
                && Contents() == old(Contents()) && Representatives() == old(Representatives())
      ensures EarlyRefusal(workspace, commit.checkpoint, preparedAt, checkedAt).None? ==>
                var live := Live(old(Contents()), now);
                var representatives := LiveRepresentatives(old(visibleHistory), old(records), now);
                var late := LateRefusal(TrimSpace(workspace), commit, this, live);
                && (late.Some? ==> r == Err(late.value) && Contents() == live && Representatives() == representatives)
                && (late.None? ==>
                      && r == Ok(RecordId(TrimSpace(workspace), commit.checkpoint.response.ref.swobuId))
                      && KeptFrom(held, LiveRecords(old(records), now))
                      && MakesRoom(live, ContentsOf(held))
                      && Reuses(commit, this, TrimSpace(workspace), representatives, reused)
                      && Contents() == ContentsOf(held)[r.value := Settled(commit.checkpoint, preparedAt, reused)]
                      && CarriedOver(Contents()[r.value], commit.checkpoint, preparedAt)
                      && (commit.reuse == NO_REUSE ==>
                            StoredAsCommitted(Contents()[r.value], commit.checkpoint, preparedAt))
                      && Representatives()
                         == WithRepresentative(StandingRepresentatives(old(visibleHistory), held), commit.reuse,
                                               TrimSpace(workspace), reused.items))
    {
      held, reused := map[], Reused([], 0);
      var name := NormalizeWorkspace(workspace);
      if name.Err? {
        return Err(name.error), held, reused;
      }
      var record := Prepared(commit.checkpoint, preparedAt);
      var problem := EarlyRefusal(workspace, commit.checkpoint, preparedAt, checkedAt);
      if problem.Some? {
        return Err(problem.value), held, reused;
      }
      LiveContents(records, now);
      ReclaimExpired(now);
      var key := RecordId(name.value, record.response.ref.swobuId);
      if key in records {
        return Err(CheckpointExists), held, reused;
      }
      var split := SplitRequestPrelude(record.request.items);
      if split.None? {
        return Err(RequestLayout), held, reused;
      }
      var retained := RetainedHistory(record.request.items);
      var base := ResolveStorageReuse(name.value, commit.reuse, retained);
      if base.Err? {
        return Err(base.error), held, reused;
      }
      reused := Reused(Flatten(base.value.tail), base.value.prefix);
      var requestTail := AppendSegment(base.value.tail, retained[base.value.prefix..]);
      var afterTail := AppendSegment(requestTail, record.response.items);
      if base.value.tail != null {
        OnChainTransitive(base.value.tail, requestTail, afterTail);
      }
      var stored := Stored(
        record.(request := WithItems(record.request, []),
                reuse := StorageReuse(Some(Token(this, name.value, afterTail)), None, 0)),
        split.value.prelude.items, requestTail, afterTail);
      SettledIsDenoted(commit.checkpoint, preparedAt, reused, stored);
      SettledCarriesOver(commit, preparedAt, reused);
      held := InsertWithRoom(key, stored, base.value.visibleKey, base.value.tail);
      StandingChains(old(visibleHistory), LiveRecords(old(records), now), held);
      return Ok(key), held, reused;
    }
  }

  lemma SettledCarriesOver(commit: Commit, preparedAt: Time, reused: Reused)
    requires SplitRequestPrelude(commit.checkpoint.request.items).Some?
    requires reused.covers <= |RetainedHistory(commit.checkpoint.request.items)|
    requires commit.reuse == NO_REUSE ==> reused == Reused([], 0)
    ensures CarriedOver(Settled(commit.checkpoint, preparedAt, reused), commit.checkpoint, preparedAt)
    ensures commit.reuse == NO_REUSE ==>
              StoredAsCommitted(Settled(commit.checkpoint, preparedAt, reused), commit.checkpoint, preparedAt)
  {
    VerbatimIffExact(commit.checkpoint, preparedAt, reused);
  }

  ghost predicate Reuses(
    commit: Commit, store: MemoryStore, workspace: string, representatives: map<HistoryKey, seq<Item>>, reused: Reused)
  {
    var retained := RetainedHistory(commit.checkpoint.request.items);
    && Minted(commit.reuse, store)
    && ReuseRefusal(commit.reuse, store, workspace, retained).None?
    && reused == ReusedBy(commit.reuse, store, workspace, retained, representatives)
  }

  lemma SettledIsDenoted(checkpoint: Checkpoint, preparedAt: Time, reused: Reused, stored: Stored)
    requires SplitRequestPrelude(checkpoint.request.items).Some?
    requires reused.covers <= |RetainedHistory(checkpoint.request.items)|
    requires LinkedTail(stored.requestTail) && LinkedTail(stored.afterTail)
    requires NoneScoped(reused.items) && WellFormedResponse(checkpoint.response)
    requires stored.checkpoint == Prepared(checkpoint, preparedAt)
               .(request := WithItems(checkpoint.request, []), reuse := stored.checkpoint.reuse)
    requires stored.prelude == SplitRequestPrelude(checkpoint.request.items).value.prelude.items
    requires Flatten(stored.requestTail)
               == reused.items + RetainedHistory(checkpoint.request.items)[reused.covers..]
    requires Flatten(stored.afterTail) == Flatten(stored.requestTail) + checkpoint.response.items
    ensures RecordShape(stored)
    ensures Erased(Denoted(stored)) == Settled(checkpoint, preparedAt, reused)
  {
    ResponseItemsAreHistory(checkpoint.response);
  }

  // The answer to a lookup by identity.
  ghost predicate Answers(answer: Option<Checkpoint>, plain: Plain, key: RecordId) {
    if key in plain then answer.Some? && Erased(answer.value) == plain[key] else answer.None?
  }

  // The answer to a lookup by history: present exactly when one live
  // checkpoint carries it.
  ghost predicate AnswersUniquely(answer: Option<Checkpoint>, plain: Plain, key: HistoryKey) {
    && (answer.Some? <==> exists k :: Carriers(plain, key) == {k})
    && (forall k :: Carriers(plain, key) == {k} ==> answer.Some? && k in plain && Erased(answer.value) == plain[k])
  }

  // The token a loaded checkpoint carries names exactly its retained request
  // history followed by its response.
  ghost predicate ExtendsExactly(checkpoint: Checkpoint, store: MemoryStore, workspace: string) {
    var token := checkpoint.reuse.token;
    && token.Some? && token.value.Token?
    && checkpoint.reuse == StorageReuse(Some(Token(store, workspace, token.value.tail)), None, 0)
    && LinkedTail(token.value.tail)
    && WellFormedResponse(checkpoint.response)
    && Flatten(token.value.tail) == RetainedHistory(checkpoint.request.items) + checkpoint.response.items
  }

  lemma DenotedExtends(records: map<RecordId, Stored>, key: RecordId, store: MemoryStore)
    requires ShapesHold(records) && TokensMatch(records, store) && key in records
    ensures ExtendsExactly(Denoted(records[key]), store, key.workspace)
  {
    SplitAtSeam(records[key].prelude, Flatten(records[key].requestTail));
  }

  lemma LiveContents(records: map<RecordId, Stored>, now: Time)
    requires ShapesHold(records)
    ensures ShapesHold(LiveRecords(records, now))
    ensures ContentsOf(LiveRecords(records, now)) == Live(ContentsOf(records), now)
  {
  }

  lemma SingletonOf<T>(members: set<T>, member: T)
    requires |members| == 1 && member in members
    ensures members == {member}
  {
    assert |members - {member}| == 0;
  }

  // The index lists exactly the checkpoints that carry a history.
  lemma CarriersAreMembers(records: map<RecordId, Stored>, byHistory: map<HistoryKey, set<string>>, key: HistoryKey)
    requires ShapesHold(records) && IndexMatches(byHistory, records)
    ensures key !in byHistory ==> Carriers(ContentsOf(records), key) == {}
    ensures key in byHistory ==>
              Carriers(ContentsOf(records), key) == set id | id in byHistory[key] :: RecordId(key.workspace, id)
    ensures forall k :: Carriers(ContentsOf(records), key) == {k} ==>
              key in byHistory && byHistory[key] == {k.id} && k.workspace == key.workspace
  {
    var carriers := Carriers(ContentsOf(records), key);
    forall k | k in carriers
      ensures key in byHistory && k.id in byHistory[key] && k == RecordId(key.workspace, k.id)
    {
      assert k in records && records[k].checkpoint.history == Some(key.history);
    }
    forall k | carriers == {k}
      ensures key in byHistory && byHistory[key] == {k.id} && k.workspace == key.workspace
    {
      assert k in carriers;
      forall id | id in byHistory[key]
        ensures id == k.id
      {
        assert RecordId(key.workspace, id) in carriers;
      }
    }
  }

  // Reading a lookup off the index answers it uniquely.
  lemma IndexAnswers(records: map<RecordId, Stored>, byHistory: map<HistoryKey, set<string>>, key: HistoryKey)
    requires ShapesHold(records) && IndexMatches(byHistory, records)
    ensures key !in byHistory || |byHistory[key]| != 1 ==> AnswersUniquely(None, ContentsOf(records), key)
    ensures key in byHistory && |byHistory[key]| == 1 ==>
              forall id :: id in byHistory[key] ==>
                && RecordId(key.workspace, id) in records
                && AnswersUniquely(Some(Denoted(records[RecordId(key.workspace, id)])), ContentsOf(records), key)
  {
    CarriersAreMembers(records, byHistory, key);
    if key in byHistory && |byHistory[key]| == 1 {
      forall id | id in byHistory[key]
        ensures RecordId(key.workspace, id) in records
        ensures AnswersUniquely(Some(Denoted(records[RecordId(key.workspace, id)])), ContentsOf(records), key)
      {
        SingletonOf(byHistory[key], id);
        assert Carriers(ContentsOf(records), key) == {RecordId(key.workspace, id)};
      }
    }
  }

  // ----------------------------------------------------------- materialisation

  // A segment that ends at its place in the whole covers its own stretch of it.
  lemma SegmentSlice(segment: Segment, all: seq<Item>, from: nat)
    requires segment.Linked() && segment.length <= |all| && Flatten(segment) == all[..segment.length]
    requires from == segment.length - |segment.items|
    ensures segment.items == all[from..segment.length]
    ensures TailLength(segment.parent) == from && Flatten(segment.parent) == all[..from]
  {
    var whole := Flatten(segment);
    assert whole == Flatten(segment.parent) + segment.items;
    assert whole[from..] == segment.items && whole[..from] == Flatten(segment.parent);
  }

  lemma FilledTo(before: seq<Item>, after: seq<Item>, all: seq<Item>, from: nat, end: nat, items: seq<Item>)
    requires from <= end <= |all| && |before| == |all| && items == all[from..end] && before[end..] == all[end..]
    requires after == before[..from] + items + before[end..]
    ensures after[from..] == all[from..]
  {
    assert all[from..] == all[from..end] + all[end..];
  }

  // Fills the result from the tail backwards, each segment at the place its
  // cached length names.
  method MaterializeItems(tail: Segment?) returns (items: seq<Item>)
    requires LinkedTail(tail)
    ensures items == Flatten(tail)
  {
    if tail == null {
      return [];
    }
    var filler := Reasoning("");
    var buffer := new Item[tail.length](_ => filler);
    var segment: Segment? := tail;
    ghost var all := Flatten(tail);
    assert all[..tail.length] == all;
    while segment != null
      invariant LinkedTail(segment) && TailLength(segment) <= tail.length
      invariant Flatten(segment) == all[..TailLength(segment)]
      invariant buffer[..][TailLength(segment)..] == all[TailLength(segment)..]
      decreases TailLength(segment)
    {
      var from := segment.length - |segment.items|;
      SegmentSlice(segment, all, from);
      ghost var before := buffer[..];
      CopyInto(buffer, from, segment.items);
      FilledTo(before, buffer[..], all, from, segment.length, segment.items);
      segment := segment.parent;
    }
    items := buffer[..];
  }

  method CopyInto(buffer: array<Item>, from: nat, items: seq<Item>)
    requires from + |items| <= buffer.Length
    modifies buffer
    ensures buffer[..] == old(buffer[..])[..from] + items + old(buffer[..])[from + |items|..]
  {
    var i := 0;
    while i < |items|
      invariant i <= |items|
      invariant forall j :: 0 <= j < i ==> buffer[from + j] == items[j]
      invariant forall j :: 0 <= j < buffer.Length && !(from <= j < from + i) ==> buffer[j] == old(buffer[j])
    {
      buffer[from + i] := items[i];
      i := i + 1;
    }
    SpliceIs(old(buffer[..]), buffer[..], from, items);
  }

  lemma SpliceIs(before: seq<Item>, after: seq<Item>, from: nat, items: seq<Item>)
    requires |after| == |before| && from + |items| <= |before|
    requires forall j :: 0 <= j < |items| ==> after[from + j] == items[j]
    requires forall j :: 0 <= j < |before| && !(from <= j < from + |items|) ==> after[j] == before[j]
    ensures after == before[..from] + items + before[from + |items|..]
  {
    assert after[..from] == before[..from] && after[from + |items|..] == before[from + |items|..];
    assert after[from..from + |items|] == items;
    assert after == after[..from] + after[from..from + |items|] + after[from + |items|..];
  }

  method Materialize(stored: Stored) returns (checkpoint: Checkpoint)
    requires RecordShape(stored)
    ensures checkpoint == Denoted(stored)
  {
    var history := MaterializeItems(stored.requestTail);
    checkpoint := stored.checkpoint.(request := WithItems(stored.checkpoint.request, stored.prelude + history));
  }

  method AppendSegment(parent: Segment?, items: seq<Item>) returns (tail: Segment?)
    requires LinkedTail(parent)
    ensures LinkedTail(tail)
    ensures Flatten(tail) == Flatten(parent) + items
    ensures parent != null ==> OnChain(parent, tail)
    ensures items == [] ==> tail == parent
  {
    if items == [] {
      return parent;
    }
    tail := new Segment(parent, items);
  }

  function IndexWithout(byHistory: map<HistoryKey, set<string>>, key: RecordId, history: Option<History>)
    : map<HistoryKey, set<string>>
    requires history.Some? ==> HistoryKey(key.workspace, history.value) in byHistory
  {
    if history.None? then byHistory
    else
      var historyKey := HistoryKey(key.workspace, history.value);
      var rest := byHistory[historyKey] - {key.id};
      if rest == {} then byHistory - {historyKey} else byHistory[historyKey := rest]
  }

  // The fingerprint branch of resolving storage reuse.
  method ResolveVisibleHistory(visible: map<HistoryKey, Segment?>, key: HistoryKey, prefixLength: nat, retained: seq<Item>)
    returns (base: Base)
    requires TailsHold(visible) && prefixLength <= |retained| && NoneScoped(retained)
    ensures LinkedTail(base.tail) && NoneScoped(Flatten(base.tail))
    ensures base.prefix == prefixLength && base.visibleKey == Some(key)
    ensures var representatives := RepresentativesOf(visible);
            Flatten(base.tail) == if key in representatives then representatives[key] else retained[..prefixLength]
    ensures base.tail == null ==> Unlisted(visible, Some(key))
  {
    if key in visible && visible[key] != null {
      return Base(visible[key], prefixLength, Some(key));
    }
    var tail := AppendSegment(null, retained[..prefixLength]);
    assert [] + retained[..prefixLength] == retained[..prefixLength];
    return Base(tail, prefixLength, Some(key));
  }

  datatype Base = Base(tail: Segment?, prefix: nat, visibleKey: Option<HistoryKey>)

  ghost predicate TokenOf(stored: Stored, store: MemoryStore, key: RecordId) {
    stored.checkpoint.reuse == StorageReuse(Some(Token(store, key.workspace, stored.afterTail)), None, 0)
  }

  function IndexWith(byHistory: map<HistoryKey, set<string>>, key: RecordId, history: Option<History>)
    : map<HistoryKey, set<string>>
  {
    if history.None? then byHistory
    else
      var historyKey := HistoryKey(key.workspace, history.value);
      var known := if historyKey in byHistory then byHistory[historyKey] else {};
      byHistory[historyKey := known + {key.id}]
  }

  lemma HeapAfterInsert(expires: multiset<Expiration>, records: map<RecordId, Stored>, key: RecordId, stored: Stored)
    requires HeapMatches(expires, records) && key !in records && stored.checkpoint.expiresAt.Some?
    ensures HeapMatches(expires + multiset{Expiration(key, stored.checkpoint.expiresAt.value)}, records[key := stored])
  {
    var entry := Expiration(key, stored.checkpoint.expiresAt.value);
    assert entry !in expires;
    forall e | e in expires + multiset{entry}
      ensures (expires + multiset{entry})[e] == 1
      ensures e.key in records[key := stored] && records[key := stored][e.key].checkpoint.expiresAt == Some(e.at)
    {
      assert e == entry || e in expires;
    }
  }

  lemma IndexAfterInsert(
    byHistory: map<HistoryKey, set<string>>, records: map<RecordId, Stored>, key: RecordId, stored: Stored)
    requires IndexMatches(byHistory, records) && key !in records
    ensures IndexMatches(IndexWith(byHistory, key, stored.checkpoint.history), records[key := stored])
  {
  }

  // Adding a record, its heap entry and its index member together keeps the
  // three structures consistent.
  lemma ConsistentWith(
    records: map<RecordId, Stored>, byHistory: map<HistoryKey, set<string>>,
    expires: multiset<Expiration>, store: MemoryStore, key: RecordId, stored: Stored)
    requires Consistent(records, byHistory, expires, store)
    requires key !in records && |records| < MAX_RECORDS
    requires RecordShape(stored) && TokenOf(stored, store, key)
    ensures Consistent(records[key := stored], IndexWith(byHistory, key, stored.checkpoint.history),
                       expires + multiset{Expiration(key, stored.checkpoint.expiresAt.value)}, store)
  {
    HeapAfterInsert(expires, records, key, stored);
    IndexAfterInsert(byHistory, records, key, stored);
    assert records[key := stored].Keys == records.Keys + {key};
  }

  function VisibleWith(visible: map<HistoryKey, Segment?>, key: Option<HistoryKey>, base: Segment?)
    : map<HistoryKey, Segment?>
  {
    if key.Some? then visible[key.value := base] else visible
  }

  lemma ContentsWith(records: map<RecordId, Stored>, key: RecordId, stored: Stored)
    requires ShapesHold(records) && RecordShape(stored)
    ensures ShapesHold(records[key := stored])
    ensures ContentsOf(records[key := stored]) == ContentsOf(records)[key := Erased(Denoted(stored))]
  {
  }

  lemma ContentsSize(records: map<RecordId, Stored>)
    requires ShapesHold(records)
    ensures |ContentsOf(records)| == |records|
  {
    assert ContentsOf(records).Keys == records.Keys;
    assert |ContentsOf(records)| == |ContentsOf(records).Keys|;
    assert |records| == |records.Keys|;
  }

  lemma VictimIsLeast(records: map<RecordId, Stored>, victim: RecordId)
    requires ShapesHold(records) && SoonestToExpire(records, victim) && |records| >= MAX_RECORDS
    ensures ShapesHold(records - {victim})
    ensures |records - {victim}| == |records| - 1
    ensures MakesRoom(ContentsOf(records), ContentsOf(records - {victim}))
  {
    var plain := ContentsOf(records);
    assert (records - {victim}).Keys == records.Keys - {victim};
    assert plain.Keys == records.Keys;
    assert LeastExpiry(plain, victim);
    assert ContentsOf(records - {victim}) == plain - {victim};
  }

  lemma ReachableWith(
    visible: map<HistoryKey, Segment?>, records: map<RecordId, Stored>, key: RecordId, stored: Stored,
    visibleKey: Option<HistoryKey>, base: Segment?)
    requires ShapesHold(records) && RecordShape(stored) && key !in records
    requires TailsHold(visible) && TailsReachable(visible, records)
    requires LinkedTail(base) && (base != null ==> NoneScoped(Flatten(base)) && OnChain(base, stored.afterTail))
    ensures ShapesHold(records[key := stored])
    ensures TailsHold(VisibleWith(visible, visibleKey, base))
    ensures TailsReachable(VisibleWith(visible, visibleKey, base), records[key := stored])
  {
    var grown := records[key := stored];
    forall segment: Segment | Reachable(segment, records)
      ensures Reachable(segment, grown)
    {
      var k :| k in records && OnChain(segment, records[k].afterTail);
      assert k in grown && grown[k] == records[k];
    }
    if base != null {
      assert key in grown && OnChain(base, grown[key].afterTail);
    }
  }

  ghost predicate SoonestToExpire(records: map<RecordId, Stored>, victim: RecordId) {
    && victim in records && records[victim].checkpoint.expiresAt.Some?
    && forall k :: k in records && records[k].checkpoint.expiresAt.Some? ==>
         records[victim].checkpoint.expiresAt.value <= records[k].checkpoint.expiresAt.value
  }

  lemma LeastEntryIsLeastRecord(expires: multiset<Expiration>, records: map<RecordId, Stored>, entry: Expiration)
    requires HeapMatches(expires, records) && entry in expires
    requires forall e :: e in expires ==> entry.at <= e.at
    ensures SoonestToExpire(records, entry.key)
  {
    forall k | k in records && records[k].checkpoint.expiresAt.Some?
      ensures entry.at <= records[k].checkpoint.expiresAt.value
    {
      assert Expiration(k, records[k].checkpoint.expiresAt.value) in expires;
    }
  }

  ghost predicate EntryMatches(
    records: map<RecordId, Stored>, byHistory: map<HistoryKey, set<string>>, entry: Expiration)
  {
    && entry.key in records
    && records[entry.key].checkpoint.expiresAt == Some(entry.at)
    && (records[entry.key].checkpoint.history.Some? ==>
          HistoryKey(entry.key.workspace, records[entry.key].checkpoint.history.value) in byHistory)
  }

  lemma IndexAfterRemoval(byHistory: map<HistoryKey, set<string>>, records: map<RecordId, Stored>, key: RecordId)
    requires IndexMatches(byHistory, records) && key in records
    ensures IndexMatches(IndexWithout(byHistory, key, records[key].checkpoint.history), records - {key})
  {
    var kept := records - {key};
    var index := IndexWithout(byHistory, key, records[key].checkpoint.history);
    forall k | k in kept && kept[k].checkpoint.history.Some?
      ensures HistoryKey(k.workspace, kept[k].checkpoint.history.value) in index
      ensures k.id in index[HistoryKey(k.workspace, kept[k].checkpoint.history.value)]
    {
      var h := HistoryKey(k.workspace, records[k].checkpoint.history.value);
      assert h in byHistory && k.id in byHistory[h];
      if records[key].checkpoint.history == Some(h.history) && k.workspace == key.workspace {
        assert k.id in byHistory[h] - {key.id};
      }
    }
  }

  // Removing a heap entry, its record and its index member together keeps the
  // three structures consistent.
  lemma ConsistentWithout(
    records: map<RecordId, Stored>, byHistory: map<HistoryKey, set<string>>,
    expires: multiset<Expiration>, store: MemoryStore, entry: Expiration)
    requires Consistent(records, byHistory, expires, store) && entry in expires
    ensures EntryMatches(records, byHistory, entry)
    ensures Consistent(records - {entry.key},
                       IndexWithout(byHistory, entry.key, records[entry.key].checkpoint.history),
                       expires - multiset{entry}, store)
  {
    HeapAfterRemoval(expires, records, entry);
    IndexAfterRemoval(byHistory, records, entry.key);
  }

  // Dropping an entry with its record keeps heap and records in bijection.
  lemma HeapAfterRemoval(expires: multiset<Expiration>, records: map<RecordId, Stored>, entry: Expiration)
    requires HeapMatches(expires, records) && entry in expires
    ensures HeapMatches(expires - multiset{entry}, records - {entry.key})
    ensures |records - {entry.key}| < |records|
  {
    var kept := records - {entry.key};
    assert kept.Keys < records.Keys;
    SubsetSize(kept.Keys, records.Keys);
    assert |kept| == |kept.Keys| && |records| == |records.Keys|;
    forall e | e in expires - multiset{entry}
      ensures (expires - multiset{entry})[e] == 1 && e.key in kept && kept[e.key].checkpoint.expiresAt == Some(e.at)
    {
      assert e in expires && e != entry;
    }
  }

  ghost function LiveRecords(records: map<RecordId, Stored>, now: Time): map<RecordId, Stored> {
    map k | k in records && !Expired(records[k].checkpoint, now) :: records[k]
  }

  ghost predicate RemovedOnlyExpired(before: map<RecordId, Stored>, after: map<RecordId, Stored>, now: Time) {
    && (forall k :: k in after ==> k in before && after[k] == before[k])
    && (forall k :: k in before && k !in after ==> Expired(before[k].checkpoint, now))
  }

  lemma RemoveOneMore(before: map<RecordId, Stored>, after: map<RecordId, Stored>, key: RecordId, now: Time)
    requires RemovedOnlyExpired(before, after, now)
    requires key in after && Expired(after[key].checkpoint, now)
    ensures RemovedOnlyExpired(before, after - {key}, now)
  {
  }

  // Once the least deadline is in the future, what remains is what is live.
  lemma DrainedIsLive(
    before: map<RecordId, Stored>, after: map<RecordId, Stored>, expires: multiset<Expiration>, now: Time)
    requires RemovedOnlyExpired(before, after, now) && HeapMatches(expires, after)
    requires forall e :: e in expires ==> e.at > now
    ensures after == LiveRecords(before, now)
  {
    forall k | k in after
      ensures !Expired(after[k].checkpoint, now)
    {
      if after[k].checkpoint.expiresAt.Some? {
        assert Expiration(k, after[k].checkpoint.expiresAt.value) in expires;
      }
    }
  }

  // Some of the records, unchanged.
  ghost predicate KeptFrom(after: map<RecordId, Stored>, before: map<RecordId, Stored>) {
    forall k :: k in after ==> k in before && after[k] == before[k]
  }

  // The representatives whose tail one of the records reaches.
  ghost function StandingRepresentatives(visible: map<HistoryKey, Segment?>, records: map<RecordId, Stored>)
    : map<HistoryKey, seq<Item>>
    requires ShapesHold(records) && TailsHold(visible)
  {
    RepresentativesOf(Swept(visible, records))
  }

  // The representatives that survive reclaiming.
  ghost function LiveRepresentatives(visible: map<HistoryKey, Segment?>, records: map<RecordId, Stored>, now: Time)
    : map<HistoryKey, seq<Item>>
    requires ShapesHold(records) && TailsHold(visible)
  {
    StandingRepresentatives(visible, LiveRecords(records, now))
  }

  ghost function WithEntry(representatives: map<HistoryKey, seq<Item>>, key: Option<HistoryKey>, items: seq<Item>)
    : map<HistoryKey, seq<Item>>
  {
    if key.Some? && items != [] then representatives[key.value := items] else representatives
  }

  // The representatives once a put has gone in: what its fingerprint now stands
  // for is what the put reused.
  ghost function WithRepresentative(
    representatives: map<HistoryKey, seq<Item>>, reuse: StorageReuse, workspace: string, items: seq<Item>)
    : map<HistoryKey, seq<Item>>
  {
    WithEntry(representatives,
              if reuse.token.None? && reuse.history.Some? then Some(HistoryKey(workspace, reuse.history.value)) else None,
              items)
  }

  // The index after maintenance: swept, or left alone with nothing to sweep.
  ghost predicate Standing(after: map<HistoryKey, Segment?>, before: map<HistoryKey, Segment?>, records: map<RecordId, Stored>)
    requires ShapesHold(records)
  {
    after == Swept(before, records) || (after == before && TailsReachable(before, records))
  }

  lemma StandingRepresents(
    after: map<HistoryKey, Segment?>, before: map<HistoryKey, Segment?>, records: map<RecordId, Stored>)
    requires ShapesHold(records) && TailsHold(before) && Standing(after, before, records)
    ensures TailsHold(after) && RepresentativesOf(after) == StandingRepresentatives(before, records)
  {
    SweptHolds(before, records);
    SweepIsIdle(before, records);
  }

  // Sweeping over fewer records after sweeping over more is sweeping over fewer.
  lemma StandingChains(visible: map<HistoryKey, Segment?>, more: map<RecordId, Stored>, fewer: map<RecordId, Stored>)
    requires ShapesHold(more) && TailsHold(visible) && KeptFrom(fewer, more)
    ensures ShapesHold(fewer)
    ensures Swept(Swept(visible, more), fewer) == Swept(visible, fewer)
  {
    forall segment: Segment | Reachable(segment, fewer)
      ensures Reachable(segment, more)
    {
      var k :| k in fewer && OnChain(segment, fewer[k].afterTail);
      assert k in more && OnChain(segment, more[k].afterTail);
    }
  }

  ghost predicate Unlisted(visible: map<HistoryKey, Segment?>, key: Option<HistoryKey>) {
    key.Some? && key.value in visible ==> visible[key.value] == null
  }

  lemma RepresentativesWith(visible: map<HistoryKey, Segment?>, key: Option<HistoryKey>, base: Segment?)
    requires TailsHold(visible) && LinkedTail(base) && (base != null ==> NoneScoped(Flatten(base)))
    requires base == null ==> Unlisted(visible, key)
    ensures TailsHold(VisibleWith(visible, key, base))
    ensures RepresentativesOf(VisibleWith(visible, key, base))
         == WithEntry(RepresentativesOf(visible), key, Flatten(base))
  {
    if key.Some? {
      if base == null {
        RepresentativesWithNone(visible, key.value);
      } else {
        RepresentativesWithOne(visible, key.value, base);
      }
    }
  }

  lemma RepresentativesWithNone(visible: map<HistoryKey, Segment?>, key: HistoryKey)
    requires TailsHold(visible) && Unlisted(visible, Some(key))
    ensures TailsHold(visible[key := null])
    ensures RepresentativesOf(visible[key := null]) == RepresentativesOf(visible)
  {
  }

  lemma RepresentativesWithOne(visible: map<HistoryKey, Segment?>, key: HistoryKey, base: Segment)
    requires TailsHold(visible) && base.Linked() && NoneScoped(Flatten(base))
    ensures TailsHold(visible[key := base])
    ensures RepresentativesOf(visible[key := base]) == RepresentativesOf(visible)[key := Flatten(base)]
    ensures Flatten(base) != []
  {
  }

  lemma SweptHolds(visible: map<HistoryKey, Segment?>, records: map<RecordId, Stored>)
    requires ShapesHold(records) && TailsHold(visible)
    ensures TailsHold(Swept(visible, records)) && TailsReachable(Swept(visible, records), records)
  {
  }

  // Skipping the sweep is harmless when every entry is still reachable.
  lemma SweepIsIdle(visible: map<HistoryKey, Segment?>, records: map<RecordId, Stored>)
    requires ShapesHold(records) && TailsHold(visible)
    ensures TailsReachable(visible, records) ==>
              RepresentativesOf(Swept(visible, records)) == RepresentativesOf(visible)
  {
  }

  lemma HeapIsNonempty(expires: multiset<Expiration>, records: map<RecordId, Stored>)
    requires HeapMatches(expires, records) && ShapesHold(records) && records != map[]
    ensures expires != multiset{}
  {
    var some :| some in records;
    assert Expiration(some, records[some].checkpoint.expiresAt.value) in expires;
  }

  lemma {:induction false} LeastExists(expires: multiset<Expiration>)
    requires expires != multiset{}
    ensures exists entry :: entry in expires && forall e :: e in expires ==> entry.at <= e.at
    decreases |expires|
  {
    var some :| some in expires;
    var rest := expires - multiset{some};
    assert forall e :: e in expires ==> e == some || e in rest;
    if rest != multiset{} {
      LeastExists(rest);
      var least :| least in rest && forall e :: e in rest ==> least.at <= e.at;
      var entry := if some.at <= least.at then some else least;
      assert entry in expires && forall e :: e in expires ==> entry.at <= e.at;
    }
  }

  lemma {:induction false} SubsetSize<T>(a: set<T>, b: set<T>)
    requires a <= b
    ensures |a| <= |b|
    ensures a < b ==> |a| < |b|
  {
    assert b == a + (b - a);
  }

  // Every collected segment's parent is collected too.
  ghost predicate ParentClosed(reachable: set<Segment>) {
    forall s :: s in reachable ==> s.Linked() && (s.parent != null ==> s.parent in reachable)
  }

  lemma {:induction false} ClosedHoldsChain(reachable: set<Segment>, tail: Segment?, segment: Segment)
    requires ParentClosed(reachable) && LinkedTail(tail)
    requires tail != null ==> tail in reachable
    requires OnChain(segment, tail)
    ensures segment in reachable
    decreases TailLength(tail)
  {
    if segment != tail {
      ClosedHoldsChain(reachable, tail.parent, segment);
    }
  }

  lemma {:induction false} OnChainTransitive(a: Segment, b: Segment, tail: Segment?)
    requires LinkedTail(tail) && b.Linked() && OnChain(a, b) && OnChain(b, tail)
    ensures OnChain(a, tail)
    decreases TailLength(tail)
  {
    if b != tail {
      OnChainTransitive(a, b, tail.parent);
    }
  }

  // One chain walk of the sweep: adding segments from the tail upwards until
  // one is already known yields the whole chain, because what is known is
  // closed under parents.
  method CollectChain(known: set<Segment>, start: Segment?) returns (reachable: set<Segment>)
    requires ParentClosed(known) && LinkedTail(start)
    ensures ParentClosed(reachable)
    ensures forall s :: s in reachable <==> s in known || OnChain(s, start)
  {
    reachable := known;
    var tail := start;
    while tail != null
      invariant LinkedTail(tail)
      invariant known <= reachable
      invariant forall s :: s in reachable ==> s in known || OnChain(s, start)
      invariant forall s :: s in reachable ==> s.Linked() && (s.parent != null ==> s.parent in reachable || s.parent == tail)
      invariant forall s :: OnChain(s, tail) ==> OnChain(s, start)
      invariant forall s :: OnChain(s, start) ==> s in reachable || OnChain(s, tail)
      decreases TailLength(tail)
    {
      if tail in reachable {
        break;
      }
      reachable := reachable + {tail};
      tail := tail.parent;
    }
    if tail != null {
      forall s: Segment | OnChain(s, tail)
        ensures s in reachable
      {
        ClosedHoldsChain(reachable, tail, s);
      }
    }
  }

  // The entries some live record still reaches.
  method SweepTails(visible: map<HistoryKey, Segment?>, records: map<RecordId, Stored>)
    returns (swept: map<HistoryKey, Segment?>)
    requires ShapesHold(records)
    ensures swept == Swept(visible, records)
  {
    var reachable := CollectReachable(records);
    swept := map h | h in visible && visible[h] != null && visible[h] in reachable :: visible[h];
  }

  // The outer loop of the sweep, over every live record.
  method CollectReachable(records: map<RecordId, Stored>) returns (reachable: set<Segment>)
    requires ShapesHold(records)
    ensures forall s :: s in reachable <==> Reachable(s, records)
  {
    reachable := {};
    var pending := records.Keys;
    while pending != {}
      invariant pending <= records.Keys
      invariant ParentClosed(reachable)
      invariant forall s :: s in reachable ==> Reachable(s, records)
      invariant forall k :: k in records && k !in pending && records[k].afterTail != null ==>
                  records[k].afterTail in reachable
      decreases pending
    {
      var key :| key in pending;
      reachable := CollectChain(reachable, records[key].afterTail);
      pending := pending - {key};
    }
    forall s: Segment, k | k in records && OnChain(s, records[k].afterTail)
      ensures s in reachable
    {
      ClosedHoldsChain(reachable, records[k].afterTail, s);
    }
  }

  // ------------------------------------------------------------- whole runs

  // What the operations do to the plain map: a lookup or a late-refused put
  // reclaims, an early refusal does nothing, and an accepted put reclaims,
  // makes room and adds.
  datatype Effect = Untouched | Reclaims(now: Time) | Adds(now: Time, key: RecordId, checkpoint: Checkpoint)

  ghost predicate PlainStep(before: Plain, effect: Effect, after: Plain) {
    match effect
    case Untouched => after == before
    case Reclaims(now) => after == Live(before, now)
    case Adds(now, key, checkpoint) =>
      && key !in Live(before, now)
      && key in after && after[key] == checkpoint
      && MakesRoom(Live(before, now), after - {key})
  }

  ghost predicate PlainRun(states: seq<Plain>, effects: seq<Effect>) {
    && |states| == |effects| + 1
    && forall i :: 0 <= i < |effects| ==> PlainStep(states[i], effects[i], states[i + 1])
  }

  // The two ways a checkpoint can leave: its deadline passed, or the store was
  // full and no live checkpoint expired sooner.
  ghost predicate LegitimatelyLost(before: Plain, effect: Effect, key: RecordId) {
    && key in before
    && !effect.Untouched?
    && (|| Expired(before[key], effect.now)
        || (effect.Adds? && |Live(before, effect.now)| >= MAX_RECORDS && LeastExpiry(Live(before, effect.now), key)))
  }

  // An accepted put is one such step.
  lemma AcceptedPutAdds(before: Plain, now: Time, room: Plain, key: RecordId, checkpoint: Checkpoint)
    requires key !in Live(before, now) && MakesRoom(Live(before, now), room)
    ensures PlainStep(before, Adds(now, key, checkpoint), room[key := checkpoint])
  {
    assert key !in room;
    assert room[key := checkpoint] - {key} == room;
  }

  lemma StepKeeps(before: Plain, effect: Effect, after: Plain, key: RecordId)
    requires PlainStep(before, effect, after) && key in before
    ensures (key in after && after[key] == before[key]) || LegitimatelyLost(before, effect, key)
  {
    if effect.Adds? && !Expired(before[key], effect.now) {
      var live := Live(before, effect.now);
      var room := after - {effect.key};
      assert key in live && key != effect.key && live[key] == before[key];
      if |live| >= MAX_RECORDS {
        var victim :| LeastExpiry(live, victim) && room == live - {victim};
        assert key == victim || key in room;
      }
      assert key in room ==> room[key] == live[key] && after[key] == room[key];
    }
  }

  // Along every run a stored checkpoint stays exactly as it was put until its
  // deadline passes or it is itself the least-expiry record of a full store,
  // whatever happens to the records it shares history with.
  lemma {:induction false} CheckpointsPersist(states: seq<Plain>, effects: seq<Effect>, key: RecordId)
    requires PlainRun(states, effects) && key in states[0]
    ensures || (key in states[|effects|] && states[|effects|][key] == states[0][key])
            || exists i :: 0 <= i < |effects| && LegitimatelyLost(states[i], effects[i], key)
    decreases |effects|
  {
    if effects != [] {
      StepKeeps(states[0], effects[0], states[1], key);
      if !LegitimatelyLost(states[0], effects[0], key) {
        forall i | 0 <= i < |effects[1..]|
          ensures PlainStep(states[1..][i], effects[1..][i], states[1..][i + 1])
        {
          assert PlainStep(states[i + 1], effects[i + 1], states[i + 2]);
        }
        CheckpointsPersist(states[1..], effects[1..], key);
        if i :| 0 <= i < |effects[1..]| && LegitimatelyLost(states[1..][i], effects[1..][i], key) {
          assert LegitimatelyLost(states[i + 1], effects[i + 1], key);
        }
      }
    }
  }

  // The capacity bound holds along every run that starts within it.
  lemma {:induction false} CapacityHolds(states: seq<Plain>, effects: seq<Effect>, i: nat)
    requires PlainRun(states, effects) && |states[0]| <= MAX_RECORDS && i < |states|
    ensures |states[i]| <= MAX_RECORDS
  {
    if i > 0 {
      CapacityHolds(states, effects, i - 1);
      StepBounded(states[i - 1], effects[i - 1], states[i]);
    }
  }

  lemma RoomIsBounded(live: Plain, room: Plain)
    requires MakesRoom(live, room) && |live| <= MAX_RECORDS
    ensures |room| < MAX_RECORDS
  {
    if |live| >= MAX_RECORDS {
      var victim :| LeastExpiry(live, victim) && room == live - {victim};
      assert room.Keys == live.Keys - {victim};
      assert |room| == |room.Keys| && |live| == |live.Keys|;
    }
  }

  lemma LiveIsBounded(plain: Plain, now: Time)
    ensures |Live(plain, now)| <= |plain|
  {
    var live := Live(plain, now);
    SubsetSize(live.Keys, plain.Keys);
    assert |live| == |live.Keys| && |plain| == |plain.Keys|;
  }

  lemma AddedIsBounded(room: Plain, after: Plain, key: RecordId)
    requires room == after - {key} && key in after
    ensures |after| == |room| + 1
  {
    assert after.Keys == room.Keys + {key};
    assert |room| == |room.Keys| && |after| == |after.Keys|;
  }

  lemma StepBounded(before: Plain, effect: Effect, after: Plain)
    requires PlainStep(before, effect, after) && |before| <= MAX_RECORDS
    ensures |after| <= MAX_RECORDS
  {
    if !effect.Untouched? {
      LiveIsBounded(before, effect.now);
      if effect.Adds? {
        RoomIsBounded(Live(before, effect.now), after - {effect.key});
        AddedIsBounded(after - {effect.key}, after, effect.key);
      }
    }
  }
}
