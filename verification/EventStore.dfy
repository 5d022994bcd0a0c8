/**
 * The in-memory event store, its receipts and its staged unit of work
 * (crates/persistent-entity/src/persistence.rs, crates/persistence-api/src/persistence/tenant.rs).
 */
module EventStore {
  import opened Entities

  datatype StoreError =
    | MissingTenant
    | Conflict(expected: int, actual: int)
    | NotFound

  /** Type, id and tenant, kept apart: two streams are never confused. */
  datatype StreamKey = StreamKey(aggregateType: string, aggregateId: string, tenant: Option<string>)

  datatype ReceiptKey = ReceiptKey(stream: StreamKey, key: string)

  /** Everything a committed unit of work makes visible, behind one lock. */
  datatype Committed = Committed(streams: map<StreamKey, seq<Event>>, receipts: map<ReceiptKey, Receipt>)

  type Offsets = map<(string, string), int>

  function ResolveTenant(tenant: Option<string>): (r: Result<Option<string>, StoreError>)
    ensures r.Ok? ==> r.value == tenant
    ensures r.Err? <==> tenant == Some("")
  {
    match tenant
    case None => Ok(None)
    case Some(t) => if t == "" then Err(MissingTenant) else Ok(Some(t))
  }

  /** An absent stream and an empty one hold the same events. */
  function StreamOf(c: Committed, k: StreamKey): seq<Event> {
    if k in c.streams then c.streams[k] else []
  }

  function OffsetOf(offsets: Offsets, k: StreamKey): int {
    if (k.aggregateType, k.aggregateId) in offsets then offsets[(k.aggregateType, k.aggregateId)] else 0
  }

  /** The offset of a stream is the one set for its type and id, whatever the tenant, and none is zero. */
  lemma OffsetIsOwn(offsets: Offsets, k: StreamKey, n: int)
    ensures OffsetOf(offsets[(k.aggregateType, k.aggregateId) := n], k) == n
    ensures OffsetOf(offsets - {(k.aggregateType, k.aggregateId)}, k) == 0
  {
  }

  function Version(offsets: Offsets, c: Committed, k: StreamKey): int {
    |StreamOf(c, k)| + OffsetOf(offsets, k)
  }

  function ReceiptKeyOf(r: Receipt): ReceiptKey {
    ReceiptKey(StreamKey(r.aggregateType, r.aggregateId, r.tenant), r.key)
  }

  /** A receipt may be written over the same request's, never over another's. */
  function Reconcile(existing: Option<Receipt>, incoming: Receipt): (r: Result<(), StoreError>)
    ensures r.Ok? <==> existing.None? || existing.value.fingerprint == incoming.fingerprint
  {
    if existing.Some? && existing.value.fingerprint != incoming.fingerprint then Err(Conflict(0, 0)) else Ok(())
  }

  function Lookup<K, V>(m: map<K, V>, k: K): Option<V> {
    if k in m then Some(m[k]) else None
  }

  /** What the direct append makes of the store: the stream entry appears even when the version is refused. */
  function DirectAppend(offsets: Offsets, c: Committed, k: StreamKey, expected: int, events: seq<Event>): Committed {
    if Version(offsets, c, k) == expected then c.(streams := c.streams[k := StreamOf(c, k) + events])
    else c.(streams := c.streams[k := StreamOf(c, k)])
  }

  /** What a unit of work holds back until its commit. */
  datatype Staged = Staged(streams: map<StreamKey, seq<Event>>, receipts: map<ReceiptKey, Receipt>)

  function StagedOf(u: Staged, k: StreamKey): seq<Event> {
    if k in u.streams then u.streams[k] else []
  }

  function StagedVersion(offsets: Offsets, c: Committed, u: Staged, k: StreamKey): int {
    OffsetOf(offsets, k) + |StreamOf(c, k)| + |StagedOf(u, k)|
  }

  function StageAppend(u: Staged, k: StreamKey, events: seq<Event>): Staged {
    u.(streams := u.streams[k := StagedOf(u, k) + events])
  }

  function StageReceipt(u: Staged, r: Receipt): Staged {
    u.(receipts := u.receipts[ReceiptKeyOf(r) := r])
  }

  /** The commit: staged events behind the committed ones, staged receipts over the committed ones, in one step. */
  function CommitAll(c: Committed, u: Staged): Committed {
    Committed(
      map k | k in c.streams.Keys + u.streams.Keys :: StreamOf(c, k) + StagedOf(u, k),
      c.receipts + u.receipts)
  }

  class InMemoryEventStore {
    var state: Committed
    const offsets: Offsets

    constructor (offsets: Offsets)
      ensures state == Committed(map[], map[]) && this.offsets == offsets
    {
      this.offsets := offsets;
      state := Committed(map[], map[]);
    }

    method Append(aggregateType: string, aggregateId: string, tenant: Option<string>, expected: int, events: seq<Event>)
        returns (r: Result<int, StoreError>)
      modifies this
      ensures tenant == Some("") ==> r == Err(MissingTenant) && state == old(state)
      ensures tenant != Some("") ==>
        var k := StreamKey(aggregateType, aggregateId, tenant);
        var current := Version(offsets, old(state), k);
        && state == DirectAppend(offsets, old(state), k, expected, events)
        && r == if current == expected then Ok(current + |events|) else Err(Conflict(expected, current))
    {
      var resolved := ResolveTenant(tenant);
      if resolved.Err? {
        return Err(resolved.error);
      }
      var k := StreamKey(aggregateType, aggregateId, resolved.value);
      var offset := OffsetOf(offsets, k);
      state := state.(streams := state.streams[k := StreamOf(state, k)]);
      var current := |state.streams[k]| + offset;
      if current != expected {
        return Err(Conflict(expected, current));
      }
      ghost var before := state.streams[k];
      for i := 0 to |events|
        invariant k in state.streams && state.streams[k] == before + events[..i]
        invariant state == old(state).(streams := old(state).streams[k := state.streams[k]])
      {
        assert before + events[..i + 1] == before + events[..i] + [events[i]];
        state := state.(streams := state.streams[k := state.streams[k] + [events[i]]]);
      }
      assert events[..|events|] == events;
      return Ok(|state.streams[k]| + offset);
    }

    method Load(aggregateType: string, aggregateId: string, tenant: Option<string>) returns (r: Result<seq<Event>, StoreError>)
      ensures tenant == Some("") ==> r == Err(MissingTenant)
      ensures tenant != Some("") ==>
        var k := StreamKey(aggregateType, aggregateId, tenant);
        r == if k in state.streams then Ok(state.streams[k]) else Err(NotFound)
    {
      var resolved := ResolveTenant(tenant);
      if resolved.Err? {
        return Err(resolved.error);
      }
      var k := StreamKey(aggregateType, aggregateId, resolved.value);
      return if k in state.streams then Ok(state.streams[k]) else Err(NotFound);
    }

    method FindReceipt(aggregateType: string, aggregateId: string, tenant: Option<string>, key: string)
        returns (r: Result<Option<Receipt>, StoreError>)
      ensures tenant == Some("") ==> r == Err(MissingTenant)
      ensures tenant != Some("") ==>
        r == Ok(Lookup(state.receipts, ReceiptKey(StreamKey(aggregateType, aggregateId, tenant), key)))
    {
      var resolved := ResolveTenant(tenant);
      if resolved.Err? {
        return Err(resolved.error);
      }
      return Ok(Lookup(state.receipts, ReceiptKey(StreamKey(aggregateType, aggregateId, resolved.value), key)));
    }

    method Begin() returns (u: StagingUnitOfWork)
      ensures fresh(u) && u.store == this && u.offsets == offsets && u.Contents() == Staged(map[], map[])
    {
      u := new StagingUnitOfWork(this);
    }
  }

  class StagingUnitOfWork {
    const store: InMemoryEventStore
    const offsets: Offsets
    var staged: map<StreamKey, seq<Event>>
    var stagedReceipts: map<ReceiptKey, Receipt>

    ghost function Contents(): Staged
      reads this
    {
      Staged(staged, stagedReceipts)
    }

    constructor (store: InMemoryEventStore)
      ensures this.store == store && offsets == store.offsets && Contents() == Staged(map[], map[])
    {
      this.store := store;
      offsets := store.offsets;
      staged, stagedReceipts := map[], map[];
    }

    /** The version counts what is committed and what is already staged here. */
    method Append(aggregateType: string, aggregateId: string, tenant: Option<string>, expected: int, events: seq<Event>)
        returns (r: Result<int, StoreError>)
      modifies this
      ensures tenant == Some("") ==> r == Err(MissingTenant) && Contents() == old(Contents())
      ensures tenant != Some("") ==>
        var k := StreamKey(aggregateType, aggregateId, tenant);
        var current := StagedVersion(offsets, store.state, old(Contents()), k);
        if current == expected
        then r == Ok(current + |events|) && Contents() == StageAppend(old(Contents()), k, events)
        else r == Err(Conflict(expected, current)) && Contents() == old(Contents())
    {
      var resolved := ResolveTenant(tenant);
      if resolved.Err? {
        return Err(resolved.error);
      }
      var k := StreamKey(aggregateType, aggregateId, resolved.value);
      var committed := |StreamOf(store.state, k)|;
      var stagedHere := if k in staged then staged[k] else [];
      var current := OffsetOf(offsets, k) + committed + |stagedHere|;
      if current != expected {
        return Err(Conflict(expected, current));
      }
      staged := staged[k := stagedHere + events];
      return Ok(current + |events|);
    }

    /** Refused by a receipt of another request, committed or staged. */
    method ConfirmReceipt(receipt: Receipt) returns (r: Result<(), StoreError>)
      modifies this
      ensures r.Ok? <==>
        && Reconcile(Lookup(store.state.receipts, ReceiptKeyOf(receipt)), receipt).Ok?
        && Reconcile(Lookup(old(stagedReceipts), ReceiptKeyOf(receipt)), receipt).Ok?
      ensures Contents() == if r.Ok? then StageReceipt(old(Contents()), receipt) else old(Contents())
    {
      var key := ReceiptKeyOf(receipt);
      r := Reconcile(Lookup(store.state.receipts, key), receipt);
      if r.Err? {
        return;
      }
      r := Reconcile(Lookup(stagedReceipts, key), receipt);
      if r.Err? {
        return;
      }
      stagedReceipts := stagedReceipts[key := receipt];
    }

    /** Publishes streams and receipts under one acquisition of the lock, in any order of the keys. */
    method Commit()
      modifies store
      ensures store.state == CommitAll(old(store.state), Contents())
    {
      ghost var before := store.state;
      var streams := CommitStreams(store.state);
      var receipts := store.state.receipts;
      var todoReceipts := stagedReceipts.Keys;
      while todoReceipts != {}
        invariant todoReceipts <= stagedReceipts.Keys
        invariant receipts.Keys == before.receipts.Keys + (stagedReceipts.Keys - todoReceipts)
        invariant forall k :: k in receipts ==>
          receipts[k] == if k in stagedReceipts && k !in todoReceipts then stagedReceipts[k] else before.receipts[k]
      {
        var k :| k in todoReceipts;
        receipts := receipts[k := stagedReceipts[k]];
        todoReceipts := todoReceipts - {k};
      }
      assert receipts == before.receipts + stagedReceipts;
      store.state := Committed(streams, receipts);
    }

    /** The first loop of the commit: the staged events behind the committed ones. */
    method CommitStreams(before: Committed) returns (streams: map<StreamKey, seq<Event>>)
      ensures streams == CommitAll(before, Contents()).streams
    {
      streams := before.streams;
      var todo := staged.Keys;
      while todo != {}
        invariant todo <= staged.Keys
        invariant streams.Keys == before.streams.Keys + (staged.Keys - todo)
        invariant forall k :: k in streams ==>
          streams[k] == StreamOf(before, k) + (if k in todo then [] else StagedOf(Contents(), k))
      {
        var k :| k in todo;
        streams := streams[k := (if k in streams then streams[k] else []) + staged[k]];
        todo := todo - {k};
      }
    }
  }

  // ------------------------------------------------------------------------------------------
  // The unit of work against the direct path
  // ------------------------------------------------------------------------------------------

  /** The unit that holds one append and one receipt. */
  function UnitOf(k: StreamKey, events: seq<Event>, r: Receipt): Staged {
    StageReceipt(StageAppend(Staged(map[], map[]), k, events), r)
  }

  /**
   * A unit staged against `c0` and committed into `c`, when nothing else has touched its stream in
   * between, leaves what the direct append and a receipt insert leave in one step.
   */
  lemma UnitRefinesDirect(offsets: Offsets, c0: Committed, c: Committed, k: StreamKey, expected: int, events: seq<Event>, r: Receipt)
    requires Version(offsets, c0, k) == expected && StreamOf(c, k) == StreamOf(c0, k)
    ensures StagedVersion(offsets, c, Staged(map[], map[]), k) == expected
    ensures CommitAll(c, UnitOf(k, events, r)) ==
      var d := DirectAppend(offsets, c, k, expected, events);
      d.(receipts := d.receipts[ReceiptKeyOf(r) := r])
  {
    UnitStreams(c, k, events, r);
    assert UnitOf(k, events, r).receipts == map[ReceiptKeyOf(r) := r];
    assert c.receipts + map[ReceiptKeyOf(r) := r] == c.receipts[ReceiptKeyOf(r) := r];
  }

  lemma UnitStreams(c: Committed, k: StreamKey, events: seq<Event>, r: Receipt)
    ensures CommitAll(c, UnitOf(k, events, r)).streams == c.streams[k := StreamOf(c, k) + events]
  {
    var after := CommitAll(c, UnitOf(k, events, r)).streams;
    forall j
      ensures j in after <==> j in c.streams || j == k
      ensures j in after ==> after[j] == if j == k then StreamOf(c, k) + events else c.streams[j]
    {
      if j != k { assert StreamOf(c, j) + [] == StreamOf(c, j); }
    }
  }

  lemma MergeCommutes<K, V>(m: map<K, V>, a: map<K, V>, b: map<K, V>)
    requires a.Keys !! b.Keys
    ensures m + a + b == m + b + a
  {
  }

  lemma AppendCommutes(c: Committed, u: Staged, v: Staged, k: StreamKey)
    requires u.streams.Keys !! v.streams.Keys
    ensures StreamOf(c, k) + StagedOf(u, k) + StagedOf(v, k) == StreamOf(c, k) + StagedOf(v, k) + StagedOf(u, k)
  {
    assert StagedOf(u, k) == [] || StagedOf(v, k) == [];
  }

  /** Units on different streams and different receipts commit in either order. */
  lemma DisjointUnitsCommute(c: Committed, u: Staged, v: Staged)
    requires u.streams.Keys !! v.streams.Keys && u.receipts.Keys !! v.receipts.Keys
    ensures CommitAll(CommitAll(c, u), v) == CommitAll(CommitAll(c, v), u)
  {
    StreamsCommute(c, u, v);
    MergeCommutes(c.receipts, u.receipts, v.receipts);
  }

  lemma StreamsCommute(c: Committed, u: Staged, v: Staged)
    requires u.streams.Keys !! v.streams.Keys
    ensures CommitAll(CommitAll(c, u), v).streams == CommitAll(CommitAll(c, v), u).streams
  {
    var uv, vu := CommitAll(CommitAll(c, u), v), CommitAll(CommitAll(c, v), u);
    forall k ensures (k in uv.streams <==> k in vu.streams) && StreamOf(uv, k) == StreamOf(vu, k) {
      StreamCommutes(c, u, v, k);
    }
    SameStreams(uv, vu);
  }

  lemma SameStreams(c: Committed, d: Committed)
    requires forall k :: (k in c.streams <==> k in d.streams) && StreamOf(c, k) == StreamOf(d, k)
    ensures c.streams == d.streams
  {
    forall k
      ensures k in c.streams <==> k in d.streams
      ensures k in c.streams ==> c.streams[k] == d.streams[k]
    {
      assert StreamOf(c, k) == StreamOf(d, k);
    }
  }

  lemma StreamCommutes(c: Committed, u: Staged, v: Staged, k: StreamKey)
    requires u.streams.Keys !! v.streams.Keys
    ensures k in CommitAll(CommitAll(c, u), v).streams <==> k in CommitAll(CommitAll(c, v), u).streams
    ensures StreamOf(CommitAll(CommitAll(c, u), v), k) == StreamOf(CommitAll(CommitAll(c, v), u), k)
  {
    AppendCommutes(c, u, v, k);
    CommitExtends(c, u, k);
    CommitExtends(CommitAll(c, u), v, k);
    CommitExtends(c, v, k);
    CommitExtends(CommitAll(c, v), u, k);
  }

  /** A commit only adds to a stream. */
  lemma CommitExtends(c: Committed, u: Staged, k: StreamKey)
    ensures StreamOf(CommitAll(c, u), k) == StreamOf(c, k) + StagedOf(u, k)
  {
  }

  /**
   * The commit does not check versions again. Two units that both staged on one stream at the same
   * version both commit, and the later one's events do not stand at the versions it was told.
   */
  lemma StaleUnitIsNotRefused(offsets: Offsets, c: Committed, k: StreamKey, a: seq<Event>, b: seq<Event>, r: Receipt, q: Receipt)
    requires a != [] && b != []
    ensures
      var e := Version(offsets, c, k);
      var c1 := CommitAll(c, UnitOf(k, a, r));
      var c2 := CommitAll(c1, UnitOf(k, b, q));
      && StagedVersion(offsets, c, Staged(map[], map[]), k) == e
      && StreamOf(c2, k) == StreamOf(c, k) + a + b
      && Version(offsets, c1, k) != e
      && Version(offsets, c2, k) != e + |b|
  {
    UnitAdds(c, k, a, r);
    UnitAdds(CommitAll(c, UnitOf(k, a, r)), k, b, q);
  }

  lemma UnitAdds(c: Committed, k: StreamKey, events: seq<Event>, r: Receipt)
    ensures StreamOf(CommitAll(c, UnitOf(k, events, r)), k) == StreamOf(c, k) + events
  {
    UnitStreams(c, k, events, r);
  }

  /**
   * A unit's events stand behind what is committed by then, and that is where its append announced
   * them exactly when the stream has not grown between the append and the commit.
   */
  lemma UnitLandsWhereAnnounced(offsets: Offsets, c0: Committed, c: Committed, k: StreamKey, expected: int, events: seq<Event>, r: Receipt)
    requires Version(offsets, c0, k) == expected
    ensures var before, after := StreamOf(c, k), StreamOf(CommitAll(c, UnitOf(k, events, r)), k);
      && after[..|before|] == before && after[|before|..] == events
      && (OffsetOf(offsets, k) + |before| == expected <==> |before| == |StreamOf(c0, k)|)
      && (OffsetOf(offsets, k) + |after| == expected + |events| <==> |before| == |StreamOf(c0, k)|)
  {
    UnitAdds(c, k, events, r);
  }

  /** Staged receipts reconcile with the committed ones exactly when their commit gives no key another fingerprint. */
  lemma ReconciledIffNoKeyRebound(c: Committed, u: Staged)
    ensures (forall k :: k in u.receipts ==> Reconcile(Lookup(c.receipts, k), u.receipts[k]).Ok?) <==>
      (forall k :: k in c.receipts ==> k in CommitAll(c, u).receipts && CommitAll(c, u).receipts[k].fingerprint == c.receipts[k].fingerprint)
  {
    if k :| k in u.receipts && Reconcile(Lookup(c.receipts, k), u.receipts[k]).Err? {
      assert k in c.receipts && CommitAll(c, u).receipts[k] == u.receipts[k];
    }
  }

  // ------------------------------------------------------------------------------------------
  // Where a receipt is filed, and where it is looked for
  // ------------------------------------------------------------------------------------------

  /** The key under which the entity's stream is kept and its receipts are looked up. */
  function KeyOf(t: Triple): StreamKey {
    StreamKey(t.entityType, t.entityId, Some(t.tenant))
  }

  /** `TenantId::new(..).ok()`: a blank tenant files the receipt under no tenant at all. */
  function FiledTenant(tenant: string): Option<string> {
    if Blank(tenant) then None else Some(tenant)
  }

  function ReceiptFor(t: Triple, id: Identity, outcome: Outcome): Receipt {
    Receipt(t.entityType, t.entityId, FiledTenant(t.tenant), id.key, id.fingerprint, outcome)
  }

  function FindReceipt(c: Committed, t: Triple, key: string): Option<Receipt> {
    Lookup(c.receipts, ReceiptKey(KeyOf(t), key))
  }

  /** What an actor's unit of work holds: events only where there are some. */
  function ActorUnit(t: Triple, events: seq<Event>, r: Receipt): Staged {
    if events == [] then StageReceipt(Staged(map[], map[]), r) else UnitOf(KeyOf(t), events, r)
  }

  lemma ActorUnitAdds(c: Committed, t: Triple, events: seq<Event>, r: Receipt)
    ensures StreamOf(CommitAll(c, ActorUnit(t, events, r)), KeyOf(t)) == StreamOf(c, KeyOf(t)) + events
  {
    CommitExtends(c, ActorUnit(t, events, r), KeyOf(t));
    assert StagedOf(ActorUnit(t, events, r), KeyOf(t)) == events;
  }

  /** One attempt of an operation on the store: the gate, then events and receipt in one unit of work. */
  function Operate(c: Committed, t: Triple, id: Identity, outcome: Outcome, events: seq<Event>): Committed {
    var r := ReceiptFor(t, id, outcome);
    if t.tenant == "" then c // the lookup and the append refuse a missing tenant
    else if FindReceipt(c, t, id.key).Some? then c
    else if Reconcile(Lookup(c.receipts, ReceiptKeyOf(r)), r).Err? then c
    else CommitAll(c, ActorUnit(t, events, r))
  }

  lemma OperateAgain(c: Committed, t: Triple, id: Identity, o: Outcome, o': Outcome, a: seq<Event>, b: seq<Event>)
    requires t.tenant == "" || !Blank(t.tenant)
    ensures Operate(Operate(c, t, id, o, a), t, id, o', b) == Operate(c, t, id, o, a)
  {
  }

  /**
   * A tenant of blanks: the receipt is filed where no lookup finds it, so a retry of the very same
   * operation passes the gate and both of its checks, and commits again.
   */
  lemma BlankTenantCommitsTwice(c: Committed, t: Triple, id: Identity, o: Outcome, o': Outcome, a: seq<Event>, b: seq<Event>)
    requires Blank(t.tenant) && t.tenant != "" && FindReceipt(c, t, id.key).None?
    requires Lookup(c.receipts, ReceiptKeyOf(ReceiptFor(t, id, o))).None?
    ensures FindReceipt(Operate(c, t, id, o, a), t, id.key).None?
    ensures StreamOf(Operate(Operate(c, t, id, o, a), t, id, o', b), KeyOf(t)) == StreamOf(c, KeyOf(t)) + a + b
  {
    var r, r' := ReceiptFor(t, id, o), ReceiptFor(t, id, o');
    ActorUnitAdds(c, t, a, r);
    ActorUnitAdds(CommitAll(c, ActorUnit(t, a, r)), t, b, r');
  }

  /** Exactly for which tenants an operation that is tried again changes nothing more: all but the blank ones that are not empty. */
  lemma RetryChangesNothingIff(t: Triple, id: Identity, event: Event)
    ensures (t.tenant == "" || !Blank(t.tenant)) <==>
      forall c, o, o', a, b :: Operate(Operate(c, t, id, o, a), t, id, o', b) == Operate(c, t, id, o, a)
  {
    if t.tenant == "" || !Blank(t.tenant) {
      forall c, o, o', a, b ensures Operate(Operate(c, t, id, o, a), t, id, o', b) == Operate(c, t, id, o, a) {
        OperateAgain(c, t, id, o, o', a, b);
      }
    } else {
      var c := Committed(map[], map[]);
      var first := Operate(c, t, id, NoEvents, []);
      var second := Operate(first, t, id, NoEvents, [event]);
      BlankTenantCommitsTwice(c, t, id, NoEvents, NoEvents, [], [event]);
      ActorUnitAdds(c, t, [], ReceiptFor(t, id, NoEvents));
      assert |StreamOf(first, KeyOf(t))| == 0 && |StreamOf(second, KeyOf(t))| == 1;
      assert second != first;
    }
  }
}
