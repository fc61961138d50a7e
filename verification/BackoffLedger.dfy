// The ledger object of internal/exchange/target_backoff.go: its maps, updated
// in place, move every target generation's cell by that cell's own step.
module BackoffLedger {
  import opened Wrappers
  import opened Backoff

  datatype Generation = Generation(target: string, version: nat)

  function Lookup<V>(m: map<Key, V>, key: Key): Option<V> {
    if key in m then Some(m[key]) else None
  }

  class TargetBackoffLedger {
    var records: map<Key, Record>
    var observations: map<Key, Entry>

    // Calls admitted and not yet observed; the epoch each record appeared at.
    ghost var outstanding: set<Observation>
    ghost var born: map<Key, nat>

    ghost function SlotAt(key: Key): Slot
      reads this
    {
      Slot(Lookup(records, key), Lookup(observations, key))
    }

    ghost function CellAt(key: Key): Cell
      reads this
    {
      Cell(key, SlotAt(key), OutstandingAt(outstanding, key), if key in born then born[key] else 0)
    }

    ghost predicate Valid()
      reads this
    {
      forall key :: CellInv(CellAt(key))
    }

    constructor ()
      ensures Valid()
      ensures forall key :: CellAt(key) == Empty(key)
    {
      records, observations := map[], map[];
      outstanding, born := {}, map[];
      new;
      assert forall key :: CellAt(key) == Empty(key);
    }

    // Drops every stale record, and its entry unless a call is still out.
    method Cleanup(now: Time)
      modifies `records, `observations
      ensures forall key :: SlotAt(key) == CleanSlot(old(SlotAt(key)), now)
    {
      var pending := records.Keys;
      while pending != {}
        invariant pending <= records.Keys
        invariant forall key :: SlotAt(key) == if key in pending then old(SlotAt(key)) else CleanSlot(old(SlotAt(key)), now)
        decreases pending
      {
        var key :| key in pending;
        if now >= records[key].until + STALE {
          records := records - {key};
          if EntryOr(Lookup(observations, key)).inFlight == 0 {
            observations := observations - {key};
          }
        }
        pending := pending - {key};
      }
    }

    // The target generations suppressed right now in one workspace.
    method Snapshot(workspace: string, now: Time) returns (active: set<Generation>)
      requires Valid() && now > ZERO
      modifies `records, `observations
      ensures Valid()
      ensures forall key :: CellAt(key) == Move(old(CellAt(key)), Pass(now))
      ensures forall g :: g in active <==> ActiveAt(records, Key(workspace, g.target, g.version), now)
    {
      Cleanup(now);
      active := Collect(records, workspace, now);
      forall key
        ensures CellInv(CellAt(key))
      {
        MoveKeeps(old(CellAt(key)), Pass(now));
      }
    }

    // Admission proper.
    method Enter(key: Key, now: Time) returns (observation: Observation)
      modifies this
      ensures observation == AdmittedAs(key, old(SlotAt(key)), now)
      ensures outstanding == old(outstanding) + {observation} && born == old(born)
      ensures SlotAt(key) == AdmitSlot(old(SlotAt(key)), now)
      ensures forall k :: k != key ==> SlotAt(k) == CleanSlot(old(SlotAt(k)), now)
    {
      Cleanup(now);
      var state := EntryOr(Lookup(observations, key));
      state := state.(nextSequence := state.nextSequence + 1, inFlight := state.inFlight + 1);
      assert SlotAt(key) == CleanSlot(old(SlotAt(key)), now);
      observations := observations[key := state];
      var record := RecordOr(Lookup(records, key));
      observation := Observation(key, state.nextSequence, state.epoch, now < record.until);
      outstanding := outstanding + {observation};
    }

    method Begin(workspace: string, target: string, version: nat, now: Time) returns (observation: Observation)
      requires Valid() && now > ZERO
      modifies this
      ensures Valid()
      ensures observation == AdmittedAs(Key(workspace, target, version), old(SlotAt(Key(workspace, target, version))), now)
      ensures var key := Key(workspace, target, version);
              observation.suppressed <==> key in old(records) && now < old(records)[key].until
      ensures outstanding == old(outstanding) + {observation}
      ensures forall k :: CellAt(k) == Move(old(CellAt(k)), AdmissionAt(Key(workspace, target, version), now, k))
    {
      var key := Key(workspace, target, version);
      observation := Enter(key, now);
      forall k
        ensures CellAt(k) == Move(old(CellAt(k)), AdmissionAt(key, now, k))
      {
        OutstandingGrows(old(outstanding), observation, k);
      }
      forall k
        ensures CellInv(CellAt(k))
      {
        MoveKeeps(old(CellAt(k)), AdmissionAt(key, now, k));
      }
    }

    // The transport branch: a failure that never reached the target.
    method ObserveTransport(observation: Observation, cause: Cause, now: Time, entry: Entry) returns (state: Entry)
      modifies `records
      ensures var judged := JudgeTransport(old(Lookup(records, observation.key)), entry, observation, cause, now);
              state == judged.entry && records == WithRecord(old(records), observation.key, judged.record)
    {
      state := entry;
      if observation.sequence <= state.latestReachable {
        return;
      }
      state := state.(latestSuppression := Max(state.latestSuppression, observation.sequence));
      var record := RecordOr(Lookup(records, observation.key));
      if record.severity == NoClass {
        record := record.(severity := Transport);
      }
      var deadline := record.until;
      if observation.epoch == state.epoch && !observation.suppressed {
        record := record.(delay := NextBackoff(record.delay));
        deadline := now + record.delay;
        state := state.(epoch := state.epoch + 1);
      }
      var hinted := RetryNotBefore(cause, now);
      if hinted.Some? && hinted.value > deadline {
        deadline := hinted.value;
      }
      record := record.(until := deadline);
      if record.until != ZERO {
        records := records[observation.key := record];
      }
    }

    // The rejection branch: the target answered, and refused.
    method ObserveRejection(observation: Observation, cause: Cause, now: Time, entry: Entry) returns (state: Entry)
      modifies `records
      ensures var judged := JudgeRejection(old(Lookup(records, observation.key)), entry, observation, cause, now);
              state == judged.entry && records == WithRecord(old(records), observation.key, judged.record)
    {
      var key := observation.key;
      state := entry.(latestReachable := Max(entry.latestReachable, observation.sequence));
      var record := RecordOr(Lookup(records, key));
      if cause.targetUnavailable || cause.targetIncompatible {
        if observation.sequence <= state.latestIngress || observation.sequence <= state.latestSuppression {
          if cause.targetIncompatible && record.severity != NoClass && Rank(record.severity) < Rank(Incompatible) {
            records := records[key := record.(severity := Incompatible)];
          }
          return;
        }
        state := state.(latestSuppression := observation.sequence);
        if cause.targetIncompatible {
          record := record.(severity := Incompatible);
        } else if record.severity != Incompatible {
          record := record.(severity := Unavailable);
        }
        if observation.epoch == state.epoch && !observation.suppressed {
          record := record.(delay := NextBackoff(record.delay));
          record := record.(until := now + record.delay);
          state := state.(epoch := state.epoch + 1);
        }
        records := records[key := record];
      } else if record.severity == Transport && observation.sequence > state.latestSuppression {
        records := records - {key};
      }
    }

    method FinishObservation(key: Key, state: Entry)
      modifies `observations
      ensures observations ==
              if state.inFlight == 0 && key !in records then old(observations) - {key}
              else old(observations)[key := state]
    {
      if state.inFlight == 0 {
        if key !in records {
          observations := observations - {key};
          return;
        }
      }
      observations := observations[key := state];
    }

    // Judges one completed call. Each admitted call is observed exactly once.
    method Observe(observation: Observation, event: Event, now: Time)
      requires Valid() && now > ZERO && observation in outstanding
      modifies this
      ensures Valid()
      ensures outstanding == old(outstanding) - {observation}
      ensures forall k :: CellAt(k) == Move(old(CellAt(k)), SettlementAt(observation, event, now, k))
    {
      var key := observation.key;
      ghost var cell := CellAt(key);
      assert CellInv(cell) && observation in cell.outstanding;
      assert cell.slot.entry.Some? by {
        assert cell.outstanding != {};
      }
      if key in observations {
        Apply(observation, event, now);
      }
      outstanding := outstanding - {observation};
      born := born[key := Move(cell, Settle(observation, event, now)).born];
      forall k
        ensures CellAt(k) == Move(old(CellAt(k)), SettlementAt(observation, event, now, k))
      {
        OutstandingShrinks(old(outstanding), observation, k);
      }
      forall k
        ensures CellInv(CellAt(k))
      {
        MoveKeeps(old(CellAt(k)), SettlementAt(observation, event, now, k));
      }
    }

    method Apply(observation: Observation, event: Event, now: Time)
      requires observation.key in observations
      modifies `records, `observations
      ensures SlotAt(observation.key) == ObserveSlot(old(SlotAt(observation.key)), observation, event, now)
      ensures forall k :: k != observation.key ==> SlotAt(k) == CleanSlot(old(SlotAt(k)), now)
    {
      var key := observation.key;
      var state := observations[key];
      if state.inFlight > 0 {
        state := state.(inFlight := state.inFlight - 1);
      }
      Cleanup(now);
      assert Lookup(records, key) == CleanRecord(old(Lookup(records, key)), now) by {
        assert SlotAt(key) == CleanSlot(old(SlotAt(key)), now);
      }
      ghost var judged := Judge(Lookup(records, key), state, observation, event, now);
      match event {
        case Ingress =>
          state := state.(
            latestReachable := Max(state.latestReachable, observation.sequence),
            latestIngress := Max(state.latestIngress, observation.sequence));
          if observation.sequence > state.latestSuppression {
            records := records - {key};
          }
        case CallFailed(cause) =>
          if cause.unavailable {
            state := ObserveTransport(observation, cause, now, state);
          } else if cause.rejected {
            state := ObserveRejection(observation, cause, now, state);
          }
        case OtherEvent =>
      }
      assert state == judged.entry && Lookup(records, key) == judged.record;
      FinishObservation(key, state);
    }
  }

  // What an operation on one key means for the cell at another.
  ghost function AdmissionAt(key: Key, now: Time, at: Key): Step {
    if at == key then Admit(now) else Pass(now)
  }

  ghost function SettlementAt(observation: Observation, event: Event, now: Time, at: Key): Step {
    if at == observation.key then Settle(observation, event, now) else Pass(now)
  }

  predicate ActiveAt(records: map<Key, Record>, key: Key, now: Time) {
    key in records && now < records[key].until
  }

  method Collect(records: map<Key, Record>, workspace: string, now: Time) returns (active: set<Generation>)
    ensures forall g :: g in active <==> ActiveAt(records, Key(workspace, g.target, g.version), now)
  {
    active := {};
    var pending := records.Keys;
    while pending != {}
      invariant pending <= records.Keys
      invariant forall g :: g in active <==>
                  Key(workspace, g.target, g.version) !in pending && ActiveAt(records, Key(workspace, g.target, g.version), now)
      decreases pending
    {
      var key :| key in pending;
      if key.workspace == workspace && now < records[key].until {
        active := active + {Generation(key.target, key.version)};
      }
      pending := pending - {key};
    }
  }

  ghost function OutstandingAt(outstanding: set<Observation>, key: Key): set<Observation> {
    set o | o in outstanding && o.key == key
  }

  lemma OutstandingGrows(outstanding: set<Observation>, o: Observation, key: Key)
    ensures OutstandingAt(outstanding + {o}, key) ==
            if key == o.key then OutstandingAt(outstanding, key) + {o} else OutstandingAt(outstanding, key)
  {
  }

  lemma OutstandingShrinks(outstanding: set<Observation>, o: Observation, key: Key)
    ensures OutstandingAt(outstanding - {o}, key) ==
            if key == o.key then OutstandingAt(outstanding, key) - {o} else OutstandingAt(outstanding, key)
  {
  }

  function WithRecord(records: map<Key, Record>, key: Key, record: Option<Record>): map<Key, Record> {
    if record.Some? then records[key := record.value] else records - {key}
  }
}
