/**
 * Snapshots, the persistence facade and recovery
 * (crates/persistent-entity/src/persistence.rs, crates/persistent-entity/src/actor.rs).
 */
module Recovery {
  import opened Entities
  import opened EventStore

  datatype Snap = Snap(version: nat, data: Payload)

  /** A stored event with its version in the stream. */
  datatype Row = Row(event: Event, version: nat)

  /** Keeps the latest snapshot per joined aggregate id; the tenant is ignored. */
  class InMemorySnapshotStore {
    var snapshots: map<string, Snap>

    constructor ()
      ensures snapshots == map[]
    {
      snapshots := map[];
    }

    method SaveSnapshot(streamId: string, tenant: Option<string>, version: nat, payload: Payload)
      modifies this
      ensures snapshots == old(snapshots)[streamId := Snap(version, payload)]
    {
      snapshots := snapshots[streamId := Snap(version, payload)];
    }

    method LoadSnapshot(streamId: string, tenant: Option<string>) returns (r: Option<Snap>)
      ensures r == Lookup(snapshots, streamId)
    {
      r := Lookup(snapshots, streamId);
    }
  }

  /** The events the snapshot does not cover: those whose logical index is at least its version. */
  function Uncovered(stream: seq<Event>, base: nat, covered: nat): seq<Event> {
    if covered <= base then stream
    else if covered - base <= |stream| then stream[covered - base..]
    else []
  }

  function EventsOf(rows: seq<Row>): seq<Event> {
    seq(|rows|, i requires 0 <= i < |rows| => rows[i].event)
  }

  /** Consecutive versions, up to `last`. */
  predicate Numbers(rows: seq<Row>, last: nat) {
    forall i :: 0 <= i < |rows| ==> rows[i].version == last - |rows| + i + 1
  }

  lemma RowsMore(rows: seq<Row>, row: Row)
    ensures EventsOf(rows + [row]) == EventsOf(rows) + [row.event]
    ensures row.version > 0 && Numbers(rows, row.version - 1) && (rows == [] || |rows| < row.version) ==> Numbers(rows + [row], row.version)
  {
  }

  lemma UncoveredMore(stored: seq<Event>, idx: nat, base: nat, covered: nat)
    requires idx < |stored|
    ensures Uncovered(stored[..idx + 1], base, covered) ==
      if idx + base >= covered then Uncovered(stored[..idx], base, covered) + [stored[idx]] else Uncovered(stored[..idx], base, covered)
    ensures idx + base < covered ==> Uncovered(stored[..idx], base, covered) == []
  {
    assert stored[..idx + 1] == stored[..idx] + [stored[idx]];
  }

  class PersistenceFacade {
    const eventStore: InMemoryEventStore
    const snapshotStore: InMemorySnapshotStore

    constructor (eventStore: InMemoryEventStore, snapshotStore: InMemorySnapshotStore)
      ensures this.eventStore == eventStore && this.snapshotStore == snapshotStore
    {
      this.eventStore := eventStore;
      this.snapshotStore := snapshotStore;
    }

    /** The snapshot, and the suffix of the stream it does not cover; an absent stream is an empty one. */
    method LoadForRecovery(aggregateType: string, aggregateId: string, tenant: Option<string>)
        returns (r: Result<(Option<Snap>, seq<Row>), StoreError>)
      ensures r.Err? <==> tenant == Some("")
      ensures r.Ok? ==>
        var k := StreamKey(aggregateType, aggregateId, tenant);
        var offset := OffsetOf(eventStore.offsets, k);
        var base := if offset < 0 then 0 else offset;
        var (snap, rows) := r.value;
        && snap == Lookup(snapshotStore.snapshots, aggregateType + "-" + aggregateId)
        && EventsOf(rows) == Uncovered(StreamOf(eventStore.state, k), base, if snap.Some? then snap.value.version else 0)
        && forall i :: 0 <= i < |rows| ==> rows[i].version == base + |StreamOf(eventStore.state, k)| - |rows| + i + 1
    {
      var snap := snapshotStore.LoadSnapshot(aggregateType + "-" + aggregateId, tenant);
      var covered := if snap.Some? then snap.value.version else 0;
      var loaded := eventStore.Load(aggregateType, aggregateId, tenant);
      if loaded.Err? && loaded.error != NotFound {
        return Err(loaded.error);
      }
      var stored := if loaded.Ok? then loaded.value else [];
      var offset := OffsetOf(eventStore.offsets, StreamKey(aggregateType, aggregateId, tenant));
      var base: nat := if offset < 0 then 0 else offset;
      var rows := [];
      for idx := 0 to |stored|
        invariant EventsOf(rows) == Uncovered(stored[..idx], base, covered)
        invariant Numbers(rows, base + idx)
      {
        UncoveredMore(stored, idx, base, covered);
        if idx + base >= covered {
          RowsMore(rows, Row(stored[idx], idx + base + 1));
          rows := rows + [Row(stored[idx], idx + base + 1)];
        }
      }
      assert stored[..|stored|] == stored;
      return Ok((snap, rows));
    }

    method PersistEvents(aggregateType: string, aggregateId: string, tenant: Option<string>, version: nat, events: seq<Event>)
        returns (r: Result<int, StoreError>)
      modifies eventStore
      ensures tenant == Some("") ==> r.Err? && eventStore.state == old(eventStore.state)
      ensures tenant != Some("") ==>
        var k := StreamKey(aggregateType, aggregateId, tenant);
        && eventStore.state == DirectAppend(eventStore.offsets, old(eventStore.state), k, version, events)
        && (r.Ok? <==> Version(eventStore.offsets, old(eventStore.state), k) == version)
        && (r.Ok? ==> r.value == version + |events|)
    {
      r := eventStore.Append(aggregateType, aggregateId, tenant, version, events);
    }

    /** Append, confirm, commit: on any refusal nothing becomes visible. */
    method PersistEventsWithReceipt(
        aggregateType: string, aggregateId: string, tenant: Option<string>, version: nat, events: seq<Event>, receipt: Receipt)
        returns (r: Result<int, StoreError>)
      modifies eventStore
      ensures
        var k := StreamKey(aggregateType, aggregateId, tenant);
        var c := old(eventStore.state);
        && (r.Ok? <==>
              && (events != [] ==> tenant != Some("") && Version(eventStore.offsets, c, k) == version)
              && Reconcile(Lookup(c.receipts, ReceiptKeyOf(receipt)), receipt).Ok?)
        && (r.Ok? ==> r.value == version + |events|)
        && (r.Err? ==> eventStore.state == c)
        && (r.Ok? && events != [] ==> eventStore.state == CommitAll(c, UnitOf(k, events, receipt)))
        && (r.Ok? && events == [] ==> eventStore.state == CommitAll(c, StageReceipt(Staged(map[], map[]), receipt)))
    {
      var uow := eventStore.Begin();
      var newVersion: int := version;
      if events != [] {
        var appended := uow.Append(aggregateType, aggregateId, tenant, version, events);
        if appended.Err? {
          return Err(appended.error);
        }
        newVersion := appended.value;
      }
      var confirmed := uow.ConfirmReceipt(receipt);
      if confirmed.Err? {
        return Err(confirmed.error);
      }
      uow.Commit();
      return Ok(newVersion);
    }

    method FindReceipt(aggregateType: string, aggregateId: string, tenant: Option<string>, key: string)
        returns (r: Result<Option<Receipt>, StoreError>)
      ensures r == if tenant == Some("") then Err(MissingTenant)
                   else Ok(Lookup(eventStore.state.receipts, ReceiptKey(StreamKey(aggregateType, aggregateId, tenant), key)))
    {
      r := eventStore.FindReceipt(aggregateType, aggregateId, tenant, key);
    }

    /** What a command does with the event store, at the store's version: the gate, then the unit of work. */
    method AttemptOperation(t: Triple, id: Identity, outcome: Outcome, version: nat, events: seq<Event>)
      requires Version(eventStore.offsets, eventStore.state, KeyOf(t)) == version
      modifies eventStore
      ensures eventStore.state == Operate(old(eventStore.state), t, id, outcome, events)
    {
      var found := FindReceipt(t.entityType, t.entityId, Some(t.tenant), id.key);
      if found.Ok? && found.value.None? {
        var r := PersistEventsWithReceipt(t.entityType, t.entityId, Some(t.tenant), version, events, ReceiptFor(t, id, outcome));
      }
    }

    method StoreSnapshot(entityId: string, tenant: Option<string>, version: nat, data: Payload)
      modifies snapshotStore
      ensures snapshotStore.snapshots == old(snapshotStore.snapshots)[entityId := Snap(version, data)]
    {
      snapshotStore.SaveSnapshot(entityId, tenant, version, data);
    }
  }

  // ------------------------------------------------------------------------------------------
  // Rebuilding the state
  // ------------------------------------------------------------------------------------------

  /** Where a snapshot puts recovery: a payload that does not decode gives the initial state at the snapshot's version. */
  function SnapState(ent: Entity, snap: Option<Snap>): State {
    match snap
    case None => ent.initial
    case Some(s) => (match ent.decode(s.data) case Some(st) => st case None => ent.initial)
  }

  function SnapVersion(snap: Option<Snap>): nat {
    if snap.Some? then snap.value.version else 0
  }

  /** `rebuild_state_from_persistence`: state and version, or nothing when the replay fails. */
  function Rebuild(ent: Entity, base: nat, snap: Option<Snap>, stream: seq<Event>): Option<(State, nat)> {
    var rows := Uncovered(stream, base, SnapVersion(snap));
    match Replay(ent, SnapState(ent, snap), rows)
    case None => None
    case Some(st) => Some((st, SnapVersion(snap) + |rows|))
  }

  /** Replaying the whole stream from the state `genesis` that stands at version `base`. */
  function FullReplay(ent: Entity, genesis: State, base: nat, stream: seq<Event>): Option<(State, nat)> {
    match Replay(ent, genesis, stream)
    case None => None
    case Some(st) => Some((st, base + |stream|))
  }

  /** The snapshot holds the state after some prefix of the stream; without one, the stream starts at version 0. */
  ghost predicate SnapValid(ent: Entity, genesis: State, base: nat, snap: Option<Snap>, stream: seq<Event>) {
    match snap
    case None => base == 0 && genesis == ent.initial
    case Some(s) =>
      && base <= s.version <= base + |stream|
      && ent.decode(s.data).Some?
      && Replay(ent, genesis, stream[..s.version - base]) == ent.decode(s.data)
  }

  /** The snapshot's version lies within the stream; without one, the stream starts at version 0. */
  predicate SnapInRange(base: nat, snap: Option<Snap>, stream: seq<Event>) {
    base <= SnapVersion(snap) <= base + |stream|
  }

  /** Snapshot plus suffix is the full replay: same state, same version, or the same failure. */
  lemma SnapshotPlusSuffix(ent: Entity, genesis: State, base: nat, snap: Option<Snap>, stream: seq<Event>)
    requires Lawful(ent) && SnapValid(ent, genesis, base, snap, stream)
    ensures Rebuild(ent, base, snap, stream) == FullReplay(ent, genesis, base, stream)
  {
    if snap.Some? {
      var n := snap.value.version - base;
      assert stream == stream[..n] + stream[n..];
      ReplaySplit(ent, genesis, stream[..n], stream[n..]);
    }
  }

  /** A valid snapshot stays valid when the stream grows. */
  lemma SnapStaysValid(ent: Entity, genesis: State, base: nat, snap: Option<Snap>, stream: seq<Event>, more: seq<Event>)
    requires SnapValid(ent, genesis, base, snap, stream)
    ensures SnapValid(ent, genesis, base, snap, stream + more)
  {
    if snap.Some? {
      var n := snap.value.version - base;
      assert (stream + more)[..n] == stream[..n];
    }
  }

  /**
   * Exactly when recovery ends at the version the store expects: when the snapshot's version lies
   * within the stream. A store with an offset and no snapshot is outside.
   */
  lemma RebuiltVersion(ent: Entity, base: nat, snap: Option<Snap>, stream: seq<Event>)
    requires Rebuild(ent, base, snap, stream).Some?
    ensures Rebuild(ent, base, snap, stream).value.1 == base + |stream|
      <==> SnapInRange(base, snap, stream)
  {
  }

  /** The entity that counts: any event takes any state on to its successor under `next`. */
  function Counting(ent: Entity, next: State -> State): Entity {
    ent.(applyEvents := (s: State, events: seq<Event>) => Some(Iterate(next, s, |events|)))
  }

  function Iterate(next: State -> State, s: State, n: nat): State {
    if n == 0 then s else Iterate(next, next(s), n - 1)
  }

  lemma {:induction false} IterateSplit(next: State -> State, s: State, m: nat, n: nat)
    ensures Iterate(next, s, m + n) == Iterate(next, Iterate(next, s, m), n)
    decreases m
  {
    if m != 0 { IterateSplit(next, next(s), m - 1, n); }
  }

  lemma CountingLawful(ent: Entity, next: State -> State)
    ensures Lawful(Counting(ent, next))
  {
    var c := Counting(ent, next);
    forall s, a, b | a != [] && b != []
      ensures c.applyEvents(s, a + b) == (match c.applyEvents(s, a) case None => None case Some(m) => c.applyEvents(m, b))
    {
      IterateSplit(next, s, |a|, |b|);
    }
  }

  /**
   * A snapshot that covers events and does not decode: recovery keeps its version but restarts from
   * the initial state, so for an entity that counts its events the covered ones are missing from the
   * state. The version still claims them.
   */
  lemma UndecodableSnapshotLosesEvents(ent: Entity, next: State -> State, base: nat, snap: Snap, stream: seq<Event>)
    requires ent.decode(snap.data) == None && SnapInRange(base, Some(snap), stream)
    ensures
      var c := Counting(ent, next);
      && Lawful(c)
      && Rebuild(c, base, Some(snap), stream) == Some((Iterate(next, ent.initial, base + |stream| - snap.version), base + |stream|))
      && FullReplay(c, ent.initial, base, stream) == Some((Iterate(next, ent.initial, |stream|), base + |stream|))
  {
    CountingLawful(ent, next);
  }

  function WithApply(ent: Entity, f: (State, seq<Event>) -> Option<State>): Entity {
    ent.(applyEvents := f)
  }

  /** Recovery from the snapshot is the full replay from `genesis`, whatever a lawful application does with its events. */
  ghost predicate AlwaysRight(ent: Entity, genesis: State, base: nat, snap: Snap, stream: seq<Event>) {
    forall f {:trigger WithApply(ent, f)} :: Lawful(WithApply(ent, f)) ==>
      Rebuild(WithApply(ent, f), base, Some(snap), stream) == FullReplay(WithApply(ent, f), genesis, base, stream)
  }

  /** The application that ignores its events. */
  function Ignoring(ent: Entity): Entity {
    WithApply(ent, (s: State, events: seq<Event>) => Some(s))
  }

  /**
   * Exactly when recovery from an undecodable snapshot is right whatever the application does with
   * its events, as long as it has as many states as there are events to tell apart: when the snapshot
   * covers nothing and the entity starts from the initial state.
   */
  lemma UndecodableSnapshotIsRightIffEmpty(ent: Entity, genesis: State, next: State -> State, base: nat, snap: Snap, stream: seq<Event>)
    requires ent.decode(snap.data) == None && SnapInRange(base, Some(snap), stream)
    requires forall m: nat, n: nat :: m <= |stream| && n <= |stream| && Iterate(next, ent.initial, m) == Iterate(next, ent.initial, n) ==> m == n
    ensures snap.version == base && genesis == ent.initial <==> AlwaysRight(ent, genesis, base, snap, stream)
  {
    if AlwaysRight(ent, genesis, base, snap, stream) {
      var ignoring := Ignoring(ent);
      assert Lawful(ignoring);
      assert Rebuild(ignoring, base, Some(snap), stream) == FullReplay(ignoring, genesis, base, stream);
      assert genesis == ent.initial;
      var counting := WithApply(ent, Counting(ent, next).applyEvents);
      assert counting == Counting(ent, next);
      CountingLawful(ent, next);
      assert Rebuild(counting, base, Some(snap), stream) == FullReplay(counting, genesis, base, stream);
      assert |Uncovered(stream, base, snap.version)| == base + |stream| - snap.version;
      assert Iterate(next, ent.initial, base + |stream| - snap.version) == Iterate(next, ent.initial, |stream|);
    }
  }
}
