/**
 * All entities of a deployment over one registry, one event store and one snapshot store: what is
 * proved of one entity alone holds of each of them here.
 */
module Runtime {
  import opened Entities
  import opened EventStore
  import opened Recovery
  import opened ActorMachine
  import opened Cell

  /**
   * The application that each activation of an entity was opened with, the store's offsets, where
   * each entity starts from, and which entities there are.
   */
  datatype Config = Config(ent: (Triple, nat) -> Entity, offsets: Offsets, genesis: Triple -> State, triples: set<Triple>)

  function ContextOf(cfg: Config, t: Triple): Context {
    Context(cfg.ent(t, 0), t, OffsetOf(cfg.offsets, KeyOf(t)), cfg.genesis(t))
  }

  datatype System = System(
    store: Committed, snapshots: map<string, Snap>,
    active: map<Triple, nat>, nextEpoch: nat,
    owner: map<nat, Triple>, acts: map<nat, Activation>,
    hist: map<Triple, History>)

  // ------------------------------------------------------------------------------------------
  // Steps, on the real stores
  // ------------------------------------------------------------------------------------------

  /** What the event store refuses without a tenant. */
  predicate NeedsTenant(l: Label) {
    l.LoadEvents? || l.Find? || l.AppendDirect? || l.StageEvents?
  }

  /** What the event store and the snapshot store answer to the actor of `t`, and become. */
  ghost predicate RealStep(offsets: Offsets, t: Triple, c: Committed, snaps: map<string, Snap>, l: Label,
                           c': Committed, snaps': map<string, Snap>) {
    && (NeedsTenant(l) ==> t.tenant != "")
    && StoresAnswer(offsets, t, c, snaps, l, c', snaps')
  }

  ghost predicate StoresAnswer(offsets: Offsets, t: Triple, c: Committed, snaps: map<string, Snap>, l: Label,
                               c': Committed, snaps': map<string, Snap>) {
    match l
    case LoadSnapshot(snap) => snap == Lookup(snaps, AggregateId(t)) && c' == c && snaps' == snaps
    case LoadEvents(stream) => stream == StreamOf(c, KeyOf(t)) && c' == c && snaps' == snaps
    case Find(key, found) => found == FindReceipt(c, t, key) && c' == c && snaps' == snaps
    case AppendDirect(expected, events, _) =>
      && Version(offsets, c, KeyOf(t)) == expected
      && c' == DirectAppend(offsets, c, KeyOf(t), expected, events) && snaps' == snaps
    case StageEvents(expected, _) =>
      StagedVersion(offsets, c, Staged(map[], map[]), KeyOf(t)) == expected && c' == c && snaps' == snaps
    case ConfirmReceipt(r) =>
      Reconcile(Lookup(c.receipts, ReceiptKeyOf(r)), r).Ok? && c' == c && snaps' == snaps
    case CommitUnit(_, events, r, _) =>
      c' == CommitAll(c, ActorUnit(t, events, r)) && snaps' == snaps
    case SaveSnapshot(version, data) => c' == c && snaps' == snaps[AggregateId(t) := Snap(version, data)]
    case StoreRefuses =>
      // A refused direct append leaves an empty stream entry where there was none.
      && (c' == c || c' == c.(streams := c.streams[KeyOf(t) := StreamOf(c, KeyOf(t))]))
      && snaps' == snaps
    case _ => c' == c && snaps' == snaps
  }

  ghost predicate SysMoves(cfg: Config, s: System, s': System, e: nat, l: Label) {
    && e in s.acts && e in s'.acts && e in s.owner && s.owner[e] in s.hist && s.owner[e] in s'.hist
    && var t := s.owner[e];
       && Acts(cfg.ent(t, e), ContextOf(cfg, t).Base(), t, s.acts[e], l, s'.acts[e])
       && RealStep(cfg.offsets, t, s.store, s.snapshots, l, s'.store, s'.snapshots)
       && Records(s.hist[t], e, s.acts[e], l, s'.hist[t])
       && s' == s.(
            store := s'.store, snapshots := s'.snapshots,
            active := if l.Deregister? && t in s.active && s.active[t] == e then s.active - {t} else s.active,
            acts := s.acts[e := s'.acts[e]], hist := s.hist[t := s'.hist[t]])
  }

  ghost predicate SysActivates(cfg: Config, s: System, s': System, t: Triple, capacity: nat) {
    && t in cfg.triples && t !in s.active
    && s' == s.(
         active := s.active[t := s.nextEpoch], nextEpoch := s.nextEpoch + 1,
         owner := s.owner[s.nextEpoch := t], acts := s.acts[s.nextEpoch := Fresh(capacity)])
  }

  ghost predicate SysEnqueues(s: System, s': System, e: nat, env: Envelope) {
    && e in s.acts && e in s.owner && s.owner[e] in s.hist
    && var t := s.owner[e];
       && !s.acts[e].closed && |s.acts[e].queue| < s.acts[e].capacity && env.id !in s.hist[t].fates
       && s' == s.(
            acts := s.acts[e := s.acts[e].(queue := s.acts[e].queue + [env])],
            hist := s.hist[t := s.hist[t].(fates := s.hist[t].fates[env.id := Fate(e, Waiting)])])
  }

  ghost predicate SysDies(s: System, s': System, e: nat) {
    && e in s.acts && e in s.owner && s.owner[e] in s.hist && !Dead(s.acts[e])
    && var t := s.owner[e];
       s' == s.(
         acts := s.acts[e := Die(s.acts[e])],
         hist := if s.acts[e].pc.Executing?
                 then s.hist[t := s.hist[t].(fates := s.hist[t].fates[s.acts[e].pc.env.id := Fate(e, Lost)])] else s.hist)
  }

  ghost predicate SysStep(cfg: Config, s: System, s': System) {
    || (exists e, l :: SysMoves(cfg, s, s', e, l))
    || (exists t, capacity :: SysActivates(cfg, s, s', t, capacity))
    || (exists e, env :: SysEnqueues(s, s', e, env))
    || (exists e :: SysDies(s, s', e))
  }

  /** Empty streams and an empty registry; snapshots there may be. */
  ghost predicate SysInit(cfg: Config, s: System) {
    && s.store == Committed(map[], map[])
    && s.active == map[] && s.owner == map[] && s.acts == map[]
    && s.hist == map t | t in cfg.triples :: History([], [], [], map[])
  }

  ghost predicate IsSysRun(cfg: Config, run: seq<System>) {
    |run| > 0 &&
    if |run| == 1 then SysInit(cfg, run[0])
    else IsSysRun(cfg, run[..|run| - 1]) && SysStep(cfg, run[|run| - 2], run[|run| - 1])
  }

  /** No other entity of the deployment has this one's joined type and id. */
  ghost predicate Alone(cfg: Config, u: Triple) {
    forall t :: t in cfg.triples && AggregateId(t) == AggregateId(u) ==> t == u
  }

  /** All activations of the entity bring the same application. */
  ghost predicate Steady(cfg: Config, u: Triple) {
    forall e: nat :: cfg.ent(u, e) == cfg.ent(u, 0)
  }

  /** A snapshot the entity has at the start stands at the version it starts from. */
  ghost predicate StartsInRange(cfg: Config, s: System, u: Triple) {
    SnapInRange(ContextOf(cfg, u).Base(), Lookup(s.snapshots, AggregateId(u)), [])
  }

  /** And it holds the state the entity starts from. */
  ghost predicate StartsRooted(cfg: Config, s: System, u: Triple) {
    SnapValid(cfg.ent(u, 0), cfg.genesis(u), ContextOf(cfg, u).Base(), Lookup(s.snapshots, AggregateId(u)), [])
  }

  /** Some run of the system ends in `s`. */
  ghost predicate SysReachable(cfg: Config, s: System) {
    exists run :: IsSysRun(cfg, run) && run[|run| - 1] == s
  }

  /** Some run in which `u` starts in range. */
  ghost predicate SysReachableInRange(cfg: Config, s: System, u: Triple) {
    exists run :: IsSysRun(cfg, run) && StartsInRange(cfg, run[0], u) && run[|run| - 1] == s
  }

  /** Some run in which `u` starts from its genesis. */
  ghost predicate SysReachableFromGenesis(cfg: Config, s: System, u: Triple) {
    exists run :: IsSysRun(cfg, run) && StartsRooted(cfg, run[0], u) && run[|run| - 1] == s
  }

  // ------------------------------------------------------------------------------------------
  // One entity's view
  // ------------------------------------------------------------------------------------------

  ghost function ReceiptsOf(c: Committed, k: StreamKey): map<string, Receipt> {
    map rk | rk in c.receipts && rk.stream == k :: rk.key := c.receipts[rk]
  }

  ghost function View(c: Committed, snaps: map<string, Snap>, t: Triple): Durable {
    Durable(StreamOf(c, KeyOf(t)), ReceiptsOf(c, KeyOf(t)), Lookup(snaps, AggregateId(t)))
  }

  ghost function ActsOf(s: System, t: Triple): map<nat, Activation> {
    map e | e in s.acts && e in s.owner && s.owner[e] == t :: s.acts[e]
  }

  ghost function Project(s: System, t: Triple): World
    requires t in s.hist
  {
    World(View(s.store, s.snapshots, t), Lookup(s.active, t), s.nextEpoch, ActsOf(s, t), s.hist[t])
  }

  ghost predicate Shaped(cfg: Config, s: System) {
    && s.hist.Keys == cfg.triples
    && s.acts.Keys == s.owner.Keys
    && (forall e :: e in s.owner ==> s.owner[e] in cfg.triples)
    && (forall e :: e in s.acts ==> e < s.nextEpoch)
  }

  lemma LookupReceipt(c: Committed, k: StreamKey, key: string)
    ensures Lookup(ReceiptsOf(c, k), key) == Lookup(c.receipts, ReceiptKey(k, key))
  {
    if ReceiptKey(k, key) in c.receipts {
      var rk := ReceiptKey(k, key);
      assert rk.key in ReceiptsOf(c, k);
    }
  }

  /** Writing a receipt under another stream's key leaves this view alone; under this one's, it appears. */
  lemma ReceiptsAfter(c: Committed, c': Committed, k: StreamKey, r: Receipt)
    requires c'.receipts == c.receipts[ReceiptKeyOf(r) := r]
    ensures ReceiptsOf(c', k) == if ReceiptKeyOf(r).stream == k then ReceiptsOf(c, k)[r.key := r] else ReceiptsOf(c, k)
  {
    forall key
      ensures Lookup(ReceiptsOf(c', k), key) ==
        Lookup(if ReceiptKeyOf(r).stream == k then ReceiptsOf(c, k)[r.key := r] else ReceiptsOf(c, k), key)
    {
      LookupReceipt(c, k, key);
      LookupReceipt(c', k, key);
    }
    SameLookups(ReceiptsOf(c', k), if ReceiptKeyOf(r).stream == k then ReceiptsOf(c, k)[r.key := r] else ReceiptsOf(c, k));
  }

  lemma SameLookups<K(!new), V>(m: map<K, V>, n: map<K, V>)
    requires forall k :: Lookup(m, k) == Lookup(n, k)
    ensures m == n
  {
    forall k
      ensures k in m <==> k in n
      ensures k in m ==> m[k] == n[k]
    {
      assert Lookup(m, k) == Lookup(n, k);
    }
  }

  predicate FiledUnder(l: Label, t: Triple) {
    && (l.CommitUnit? ==> ReceiptKeyOf(l.receipt).stream == KeyOf(t))
    && (l.ConfirmReceipt? ==> ReceiptKeyOf(l.receipt).stream == KeyOf(t))
  }

  /** With a tenant that is not blank, receipts are filed where the entity's stream is. */
  lemma ActsFileUnder(ent: Entity, base: nat, t: Triple, a: Activation, l: Label, a': Activation)
    requires Acts(ent, base, t, a, l, a') && !Blank(t.tenant)
    ensures FiledUnder(l, t)
  {
  }

  predicate FiledAway(l: Label, u: Triple) {
    l.CommitUnit? ==> ReceiptKeyOf(l.receipt).stream != KeyOf(u)
  }

  /** No entity files a receipt where another one looks, not even one with a blank tenant. */
  lemma ActsFileAway(ent: Entity, base: nat, t: Triple, a: Activation, l: Label, a': Activation, u: Triple)
    requires Acts(ent, base, t, a, l, a') && t != u
    ensures FiledAway(l, u)
  {
  }

  lemma ActorUnitParts(t: Triple, events: seq<Event>, r: Receipt, k: StreamKey)
    ensures StagedOf(ActorUnit(t, events, r), k) == if k == KeyOf(t) then events else []
    ensures ActorUnit(t, events, r).receipts == map[ReceiptKeyOf(r) := r]
  {
  }

  lemma CommitViews(c: Committed, t: Triple, events: seq<Event>, r: Receipt, c': Committed, k: StreamKey)
    requires c' == CommitAll(c, ActorUnit(t, events, r))
    ensures StreamOf(c', k) == if k == KeyOf(t) then StreamOf(c, k) + events else StreamOf(c, k)
    ensures ReceiptsOf(c', k) == if ReceiptKeyOf(r).stream == k then ReceiptsOf(c, k)[r.key := r] else ReceiptsOf(c, k)
  {
    var u := ActorUnit(t, events, r);
    CommitExtends(c, u, k);
    ActorUnitParts(t, events, r, k);
    assert c'.receipts == c.receipts + u.receipts;
    assert c.receipts + map[ReceiptKeyOf(r) := r] == c.receipts[ReceiptKeyOf(r) := r];
    ReceiptsAfter(c, c', k, r);
  }

  /** The real stores do to the entity's own view what its step says. */
  lemma OwnView(offsets: Offsets, t: Triple, c: Committed, snaps: map<string, Snap>, l: Label, c': Committed, snaps': map<string, Snap>)
    requires RealStep(offsets, t, c, snaps, l, c', snaps') && FiledUnder(l, t)
    ensures StoreStep(OffsetOf(offsets, KeyOf(t)), View(c, snaps, t), l, View(c', snaps', t))
  {
    match l
    case Find(key, found) => LookupReceipt(c, KeyOf(t), key);
    case ConfirmReceipt(r) => LookupReceipt(c, KeyOf(t), r.key);
    case CommitUnit(_, events, r, _) => CommitViews(c, t, events, r, c', KeyOf(t));
    case AppendDirect(_, _, _) => SameReceipts(c, c', KeyOf(t));
    case StoreRefuses => SameReceipts(c, c', KeyOf(t));
    case _ =>
  }

  lemma AppendIsReal(offsets: Offsets, t: Triple, c: Committed, snaps: map<string, Snap>, l: Label, d': Durable, c': Committed)
    requires StoreStep(OffsetOf(offsets, KeyOf(t)), View(c, snaps, t), l, d') && l.AppendDirect?
    requires c' == DirectAppend(offsets, c, KeyOf(t), l.expected, l.events)
    ensures StoresAnswer(offsets, t, c, snaps, l, c', snaps) && View(c', snaps, t) == d'
  {
    SameReceipts(c, c', KeyOf(t));
  }

  lemma CommitIsReal(offsets: Offsets, t: Triple, c: Committed, snaps: map<string, Snap>, l: Label, d': Durable, c': Committed)
    requires StoreStep(OffsetOf(offsets, KeyOf(t)), View(c, snaps, t), l, d') && l.CommitUnit? && FiledUnder(l, t)
    requires c' == CommitAll(c, ActorUnit(t, l.events, l.receipt))
    ensures StoresAnswer(offsets, t, c, snaps, l, c', snaps) && View(c', snaps, t) == d'
  {
    CommitViews(c, t, l.events, l.receipt, c', KeyOf(t));
  }

  lemma QuietIsReal(offsets: Offsets, t: Triple, c: Committed, snaps: map<string, Snap>, l: Label, d': Durable, snaps': map<string, Snap>)
    requires StoreStep(OffsetOf(offsets, KeyOf(t)), View(c, snaps, t), l, d') && !l.AppendDirect? && !l.CommitUnit? && FiledUnder(l, t)
    requires snaps' == if l.SaveSnapshot? then snaps[AggregateId(t) := Snap(l.version, l.data)] else snaps
    ensures StoresAnswer(offsets, t, c, snaps, l, c, snaps') && View(c, snaps', t) == d'
  {
    match l
    case Find(key, _) => LookupReceipt(c, KeyOf(t), key);
    case ConfirmReceipt(r) => LookupReceipt(c, KeyOf(t), r.key);
    case SaveSnapshot(version, data) => assert Lookup(snaps', AggregateId(t)) == Some(Snap(version, data));
    case _ =>
  }

  /** Nothing more: every step of the view is a step of the real stores that looks like it. */
  lemma ViewStepIsReal(offsets: Offsets, t: Triple, c: Committed, snaps: map<string, Snap>, l: Label, d': Durable)
      returns (c': Committed, snaps': map<string, Snap>)
    requires StoreStep(OffsetOf(offsets, KeyOf(t)), View(c, snaps, t), l, d') && FiledUnder(l, t) && t.tenant != ""
    ensures RealStep(offsets, t, c, snaps, l, c', snaps') && View(c', snaps', t) == d'
  {
    c', snaps' := c, snaps;
    if l.AppendDirect? {
      c' := DirectAppend(offsets, c, KeyOf(t), l.expected, l.events);
      AppendIsReal(offsets, t, c, snaps, l, d', c');
    } else if l.CommitUnit? {
      c' := CommitAll(c, ActorUnit(t, l.events, l.receipt));
      CommitIsReal(offsets, t, c, snaps, l, d', c');
    } else {
      snaps' := if l.SaveSnapshot? then snaps[AggregateId(t) := Snap(l.version, l.data)] else snaps;
      QuietIsReal(offsets, t, c, snaps, l, d', snaps');
    }
  }

  lemma SameReceipts(c: Committed, c': Committed, k: StreamKey)
    requires c'.receipts == c.receipts
    ensures ReceiptsOf(c', k) == ReceiptsOf(c, k)
  {
  }

  /** And nothing to another entity's stream and receipts. */
  lemma OtherStream(offsets: Offsets, t: Triple, u: Triple, c: Committed, snaps: map<string, Snap>, l: Label, c': Committed, snaps': map<string, Snap>)
    requires RealStep(offsets, t, c, snaps, l, c', snaps') && FiledAway(l, u) && KeyOf(t) != KeyOf(u)
    ensures StreamOf(c', KeyOf(u)) == StreamOf(c, KeyOf(u)) && ReceiptsOf(c', KeyOf(u)) == ReceiptsOf(c, KeyOf(u))
  {
    if l.CommitUnit? {
      CommitViews(c, t, l.events, l.receipt, c', KeyOf(u));
    } else {
      assert c'.receipts == c.receipts && StreamOf(c', KeyOf(u)) == StreamOf(c, KeyOf(u));
      SameReceipts(c, c', KeyOf(u));
    }
  }

  /** Nor to its snapshot, when the joined ids differ. */
  lemma OtherSnapshot(offsets: Offsets, t: Triple, u: Triple, c: Committed, snaps: map<string, Snap>, l: Label, c': Committed, snaps': map<string, Snap>)
    requires RealStep(offsets, t, c, snaps, l, c', snaps') && AggregateId(t) != AggregateId(u)
    ensures Lookup(snaps', AggregateId(u)) == Lookup(snaps, AggregateId(u))
  {
  }

  // ------------------------------------------------------------------------------------------
  // Every step of the system is a step of each entity
  // ------------------------------------------------------------------------------------------

  lemma KeysApart(t: Triple, u: Triple)
    requires t != u
    ensures KeyOf(t) != KeyOf(u)
  {
  }

  lemma OwnActs(s: System, s': System, e: nat, t: Triple)
    requires e in s.acts && e in s.owner && s.owner[e] == t && s'.owner == s.owner
    requires e in s'.acts && s'.acts == s.acts[e := s'.acts[e]]
    ensures ActsOf(s', t) == ActsOf(s, t)[e := s'.acts[e]]
  {
  }

  lemma OtherActs(s: System, s': System, e: nat, u: Triple)
    requires e in s.acts && e in s.owner && s.owner[e] != u && s'.owner == s.owner
    requires e in s'.acts && s'.acts == s.acts[e := s'.acts[e]]
    ensures ActsOf(s', u) == ActsOf(s, u)
  {
  }

  lemma MoveProjectsOwn(cfg: Config, s: System, s': System, e: nat, l: Label)
    requires Shaped(cfg, s) && SysMoves(cfg, s, s', e, l) && !Blank(s.owner[e].tenant)
    ensures var t := s.owner[e]; Moves(ContextOf(cfg, t), cfg.ent(t, e), Project(s, t), Project(s', t), e, l)
  {
    var t := s.owner[e];
    ActsFileUnder(cfg.ent(t, e), ContextOf(cfg, t).Base(), t, s.acts[e], l, s'.acts[e]);
    OwnView(cfg.offsets, t, s.store, s.snapshots, l, s'.store, s'.snapshots);
    OwnActs(s, s', e, t);
  }

  lemma MoveProjectsOther(cfg: Config, s: System, s': System, e: nat, l: Label, u: Triple)
    requires Alone(cfg, u) && Shaped(cfg, s) && SysMoves(cfg, s, s', e, l) && u in cfg.triples && u != s.owner[e]
    ensures u in s'.hist && Project(s', u) == Project(s, u)
  {
    var t := s.owner[e];
    ActsFileAway(cfg.ent(t, e), ContextOf(cfg, t).Base(), t, s.acts[e], l, s'.acts[e], u);
    KeysApart(t, u);
    OtherStream(cfg.offsets, t, u, s.store, s.snapshots, l, s'.store, s'.snapshots);
    OtherSnapshot(cfg.offsets, t, u, s.store, s.snapshots, l, s'.store, s'.snapshots);
    OtherActs(s, s', e, u);
  }

  lemma ActivateActs(cfg: Config, s: System, s': System, t: Triple, capacity: nat, u: Triple)
    requires Shaped(cfg, s) && SysActivates(cfg, s, s', t, capacity)
    ensures ActsOf(s', u) == if u == t then ActsOf(s, u)[s.nextEpoch := Fresh(capacity)] else ActsOf(s, u)
  {
    assert s.nextEpoch !in s.acts && s.nextEpoch !in s.owner;
  }

  lemma ActivateProjects(cfg: Config, s: System, s': System, t: Triple, capacity: nat, u: Triple)
    requires Shaped(cfg, s) && SysActivates(cfg, s, s', t, capacity) && u in cfg.triples
    ensures FixedStep(ContextOf(cfg, u), Project(s, u), Project(s', u))
  {
    var w, w' := Project(s, u), Project(s', u);
    ActivateActs(cfg, s, s', t, capacity, u);
    if u == t {
      assert w.live == None && w'.live == Some(s.nextEpoch);
      assert Activates(w, w', s.nextEpoch, capacity);
    } else {
      assert w'.live == w.live;
      assert EpochsPass(w, w');
    }
  }

  lemma Stutters(cx: Context, w: World)
    ensures FixedStep(cx, w, w)
  {
    assert EpochsPass(w, w);
  }

  lemma EnqueueProjects(cfg: Config, s: System, s': System, e: nat, env: Envelope, u: Triple)
    requires Shaped(cfg, s) && SysEnqueues(s, s', e, env) && u in cfg.triples
    ensures FixedStep(ContextOf(cfg, u), Project(s, u), Project(s', u))
  {
    var w, w' := Project(s, u), Project(s', u);
    if u == s.owner[e] {
      OwnActs(s, s', e, u);
      assert Enqueues(w, w', e, env);
    } else {
      OtherActs(s, s', e, u);
      Stutters(ContextOf(cfg, u), w);
    }
  }

  lemma DieProjects(cfg: Config, s: System, s': System, e: nat, u: Triple)
    requires Shaped(cfg, s) && SysDies(s, s', e) && u in cfg.triples
    ensures FixedStep(ContextOf(cfg, u), Project(s, u), Project(s', u))
  {
    var w, w' := Project(s, u), Project(s', u);
    if u == s.owner[e] {
      OwnActs(s, s', e, u);
      assert Dies(w, w', e);
    } else {
      OtherActs(s, s', e, u);
      Stutters(ContextOf(cfg, u), w);
    }
  }

  lemma StepKeepsShape(cfg: Config, s: System, s': System)
    requires Shaped(cfg, s) && SysStep(cfg, s, s')
    ensures Shaped(cfg, s')
  {
    if e, l :| SysMoves(cfg, s, s', e, l) {
      MoveKeepsShape(cfg, s, s', e, l);
    } else if t, capacity :| SysActivates(cfg, s, s', t, capacity) {
      ActivateKeepsShape(cfg, s, s', t, capacity);
    } else if e, env :| SysEnqueues(s, s', e, env) {
      EnqueueKeepsShape(cfg, s, s', e, env);
    } else {
      var e :| SysDies(s, s', e);
      DieKeepsShape(cfg, s, s', e);
    }
  }

  lemma ActivateKeepsShape(cfg: Config, s: System, s': System, t: Triple, capacity: nat)
    requires Shaped(cfg, s) && SysActivates(cfg, s, s', t, capacity)
    ensures Shaped(cfg, s')
  {
  }

  lemma EnqueueKeepsShape(cfg: Config, s: System, s': System, e: nat, env: Envelope)
    requires Shaped(cfg, s) && SysEnqueues(s, s', e, env)
    ensures Shaped(cfg, s')
  {
  }

  lemma DieKeepsShape(cfg: Config, s: System, s': System, e: nat)
    requires Shaped(cfg, s) && SysDies(s, s', e)
    ensures Shaped(cfg, s')
  {
  }

  lemma MoveKeepsShape(cfg: Config, s: System, s': System, e: nat, l: Label)
    requires Shaped(cfg, s) && SysMoves(cfg, s, s', e, l)
    ensures Shaped(cfg, s')
  {
    assert s'.owner == s.owner && s'.nextEpoch == s.nextEpoch && s'.acts.Keys == s.acts.Keys && s'.hist.Keys == s.hist.Keys;
  }

  lemma StepProjects(cfg: Config, s: System, s': System, u: Triple)
    requires !Blank(u.tenant) && Alone(cfg, u) && Shaped(cfg, s) && SysStep(cfg, s, s') && u in cfg.triples
    ensures Shaped(cfg, s') && Step(ContextOf(cfg, u), Project(s, u), Project(s', u))
    ensures Steady(cfg, u) ==> FixedStep(ContextOf(cfg, u), Project(s, u), Project(s', u))
  {
    StepKeepsShape(cfg, s, s');
    var cx, w, w' := ContextOf(cfg, u), Project(s, u), Project(s', u);
    if e, l :| SysMoves(cfg, s, s', e, l) {
      if u == s.owner[e] {
        MoveProjectsOwn(cfg, s, s', e, l);
        MoveIsStep(cx, cfg.ent(u, e), w, w', e, l);
      } else {
        MoveProjectsOther(cfg, s, s', e, l, u);
        Stutters(cx, w);
        FixedIsStep(cx, w, w);
      }
    } else {
      QuietStepProjects(cfg, s, s', u);
      FixedIsStep(cx, w, w');
    }
  }

  lemma MoveIsStep(cx: Context, ent: Entity, w: World, w': World, e: nat, l: Label)
    requires Moves(cx, ent, w, w', e, l)
    ensures Step(cx, w, w') && (ent == cx.ent ==> FixedStep(cx, w, w'))
  {
  }

  lemma InitProjects(cfg: Config, s: System, u: Triple)
    requires SysInit(cfg, s) && u in cfg.triples
    ensures Shaped(cfg, s) && KeyedInit(Project(s, u))
    ensures StartsInRange(cfg, s, u) ==> Init(ContextOf(cfg, u), Project(s, u))
  {
    EmptyViews(s, u);
  }

  lemma EmptyViews(s: System, u: Triple)
    requires s.store == Committed(map[], map[]) && s.acts == map[] && s.owner == map[]
    ensures StreamOf(s.store, KeyOf(u)) == [] && ReceiptsOf(s.store, KeyOf(u)) == map[] && ActsOf(s, u) == map[]
  {
  }

  /**
   * An entity whose tenant is not blank and whose joined id no other has: every run of the whole
   * system is a run of that entity alone, however the others are keyed. Sharing the registry and the
   * stores makes no difference to it.
   */
  lemma {:induction false} RunProjects(cfg: Config, run: seq<System>, u: Triple) returns (own: seq<World>)
    requires !Blank(u.tenant) && Alone(cfg, u) && IsSysRun(cfg, run) && StartsInRange(cfg, run[0], u) && u in cfg.triples
    ensures Shaped(cfg, run[|run| - 1])
    ensures IsRun(ContextOf(cfg, u), own) && |own| == |run| && own[|own| - 1] == Project(run[|run| - 1], u)
    ensures Steady(cfg, u) ==> IsFixedRun(ContextOf(cfg, u), own)
    ensures u in run[0].hist && own[0] == Project(run[0], u)
  {
    if |run| == 1 {
      InitProjects(cfg, run[0], u);
      own := [Project(run[0], u)];
    } else {
      var s, s' := run[|run| - 2], run[|run| - 1];
      var before := RunProjects(cfg, run[..|run| - 1], u);
      StepProjects(cfg, s, s', u);
      own := RunGoesOn(ContextOf(cfg, u), before, Project(s', u));
    }
  }

  lemma RunGoesOn(cx: Context, run: seq<World>, w: World) returns (more: seq<World>)
    requires IsRun(cx, run) && Step(cx, run[|run| - 1], w)
    ensures IsRun(cx, more) && |more| == |run| + 1 && more[|run|] == w && more[0] == run[0]
    ensures IsFixedRun(cx, run) && FixedStep(cx, run[|run| - 1], w) ==> IsFixedRun(cx, more)
  {
    more := run + [w];
    assert more[..|more| - 1] == run;
  }

  /** So such an entity is in a state that is reachable for it alone. */
  lemma EntityReachable(cfg: Config, s: System, u: Triple)
    requires !Blank(u.tenant) && Alone(cfg, u) && SysReachableInRange(cfg, s, u) && u in cfg.triples
    ensures Shaped(cfg, s) && Reachable(ContextOf(cfg, u), Project(s, u))
  {
    var run :| IsSysRun(cfg, run) && StartsInRange(cfg, run[0], u) && run[|run| - 1] == s;
    var own := RunProjects(cfg, run, u);
  }

  lemma EntityReachableFromGenesis(cfg: Config, s: System, u: Triple)
    requires !Blank(u.tenant) && Alone(cfg, u) && Steady(cfg, u) && SysReachableFromGenesis(cfg, s, u) && u in cfg.triples
    ensures Shaped(cfg, s) && ReachableFromGenesis(ContextOf(cfg, u), Project(s, u))
  {
    var run :| IsSysRun(cfg, run) && StartsRooted(cfg, run[0], u) && run[|run| - 1] == s;
    RootedIsInRange(cfg, run[0], u);
    var own := RunProjects(cfg, run, u);
    RootedProjects(cfg, run[0], u);
  }

  lemma RootedIsInRange(cfg: Config, s: System, u: Triple)
    requires StartsRooted(cfg, s, u)
    ensures StartsInRange(cfg, s, u)
  {
  }

  lemma RootedProjects(cfg: Config, s: System, u: Triple)
    requires StartsRooted(cfg, s, u) && u in s.hist
    ensures Rooted(ContextOf(cfg, u), Project(s, u))
  {
  }

  // ------------------------------------------------------------------------------------------
  // An entity whose joined id others may have: its operations, receipts and stream do not notice
  // ------------------------------------------------------------------------------------------

  lemma OwnKeyed(cfg: Config, s: System, s': System, e: nat, l: Label)
    requires Shaped(cfg, s) && SysMoves(cfg, s, s', e, l) && !Blank(s.owner[e].tenant)
    ensures var t := s.owner[e]; KeyedMoves(ContextOf(cfg, t), cfg.ent(t, e), Project(s, t), Project(s', t), e, l)
  {
    var t := s.owner[e];
    OwnActed(cfg, s, s', e, l);
    ActsFileUnder(cfg.ent(t, e), ContextOf(cfg, t).Base(), t, s.acts[e], l, s'.acts[e]);
    OwnView(cfg.offsets, t, s.store, s.snapshots, l, s'.store, s'.snapshots);
  }

  lemma OtherKeyed(cfg: Config, s: System, s': System, e: nat, l: Label, u: Triple)
    requires Shaped(cfg, s) && SysMoves(cfg, s, s', e, l) && u in cfg.triples && u != s.owner[e]
    ensures u in s'.hist && SnapsPass(Project(s, u), Project(s', u))
  {
    var t := s.owner[e];
    OtherElsewhere(cfg, s, s', e, l, u);
    ActsFileAway(cfg.ent(t, e), ContextOf(cfg, t).Base(), t, s.acts[e], l, s'.acts[e], u);
    KeysApart(t, u);
    OtherStream(cfg.offsets, t, u, s.store, s.snapshots, l, s'.store, s'.snapshots);
  }

  /** A step that no activation takes is the same for each entity, however the deployment is keyed. */
  lemma QuietStepProjects(cfg: Config, s: System, s': System, u: Triple)
    requires Shaped(cfg, s) && Shaped(cfg, s') && SysStep(cfg, s, s') && u in cfg.triples
    requires !exists e, l :: SysMoves(cfg, s, s', e, l)
    ensures FixedStep(ContextOf(cfg, u), Project(s, u), Project(s', u))
  {
    if t, capacity :| SysActivates(cfg, s, s', t, capacity) {
      ActivateProjects(cfg, s, s', t, capacity, u);
    } else if e, env :| SysEnqueues(s, s', e, env) {
      EnqueueProjects(cfg, s, s', e, env, u);
    } else {
      var e :| SysDies(s, s', e);
      DieProjects(cfg, s, s', e, u);
    }
  }

  lemma StepProjectsKeyed(cfg: Config, s: System, s': System, u: Triple)
    requires !Blank(u.tenant) && Shaped(cfg, s) && SysStep(cfg, s, s') && u in cfg.triples
    ensures Shaped(cfg, s') && KeyedStep(ContextOf(cfg, u), Project(s, u), Project(s', u))
  {
    StepKeepsShape(cfg, s, s');
    if e, l :| SysMoves(cfg, s, s', e, l) {
      if u == s.owner[e] {
        OwnKeyed(cfg, s, s', e, l);
      } else {
        OtherKeyed(cfg, s, s', e, l, u);
      }
    } else {
      QuietStepProjects(cfg, s, s', u);
      FixedIsStep(ContextOf(cfg, u), Project(s, u), Project(s', u));
      StepIsKeyed(ContextOf(cfg, u), Project(s, u), Project(s', u));
    }
  }

  lemma KeyedRunGoesOn(cx: Context, run: seq<World>, w: World) returns (more: seq<World>)
    requires IsKeyedRun(cx, run) && KeyedStep(cx, run[|run| - 1], w)
    ensures IsKeyedRun(cx, more) && |more| == |run| + 1 && more[|run|] == w
  {
    more := run + [w];
    assert more[..|more| - 1] == run;
  }

  lemma {:induction false} RunProjectsKeyed(cfg: Config, run: seq<System>, u: Triple) returns (own: seq<World>)
    requires !Blank(u.tenant) && IsSysRun(cfg, run) && u in cfg.triples
    ensures Shaped(cfg, run[|run| - 1])
    ensures IsKeyedRun(ContextOf(cfg, u), own) && |own| == |run| && own[|own| - 1] == Project(run[|run| - 1], u)
  {
    if |run| == 1 {
      InitProjects(cfg, run[0], u);
      own := [Project(run[0], u)];
    } else {
      var s, s' := run[|run| - 2], run[|run| - 1];
      var before := RunProjectsKeyed(cfg, run[..|run| - 1], u);
      StepProjectsKeyed(cfg, s, s', u);
      own := KeyedRunGoesOn(ContextOf(cfg, u), before, Project(s', u));
    }
  }

  /** With a tenant that is not blank, operations, receipts and stream are those of an entity alone whose snapshots may do anything. */
  lemma EntityKeyedReachable(cfg: Config, s: System, u: Triple)
    requires !Blank(u.tenant) && SysReachable(cfg, s) && u in cfg.triples
    ensures Shaped(cfg, s) && KeyedReachable(ContextOf(cfg, u), Project(s, u))
  {
    var run :| IsSysRun(cfg, run) && run[|run| - 1] == s;
    var own := RunProjectsKeyed(cfg, run, u);
  }

  // ------------------------------------------------------------------------------------------
  // Any deployment: routing, lifecycle and callers
  // ------------------------------------------------------------------------------------------

  lemma OwnActed(cfg: Config, s: System, s': System, e: nat, l: Label)
    requires Shaped(cfg, s) && SysMoves(cfg, s, s', e, l)
    ensures var t := s.owner[e]; Acted(ContextOf(cfg, t), cfg.ent(t, e), Project(s, t), Project(s', t), e, l)
  {
    OwnActs(s, s', e, s.owner[e]);
  }

  lemma OtherElsewhere(cfg: Config, s: System, s': System, e: nat, l: Label, u: Triple)
    requires Shaped(cfg, s) && SysMoves(cfg, s, s', e, l) && u in cfg.triples && u != s.owner[e]
    ensures u in s'.hist && Elsewhere(Project(s, u), Project(s', u))
  {
    OtherActs(s, s', e, u);
  }

  lemma StepProjectsLoosely(cfg: Config, s: System, s': System, u: Triple)
    requires Shaped(cfg, s) && SysStep(cfg, s, s') && u in cfg.triples
    ensures Shaped(cfg, s') && LooseStep(ContextOf(cfg, u), Project(s, u), Project(s', u))
  {
    StepKeepsShape(cfg, s, s');
    if e, l :| SysMoves(cfg, s, s', e, l) {
      if u == s.owner[e] {
        OwnActed(cfg, s, s', e, l);
      } else {
        OtherElsewhere(cfg, s, s', e, l, u);
      }
    } else {
      QuietStepProjects(cfg, s, s', u);
      FixedIsStep(ContextOf(cfg, u), Project(s, u), Project(s', u));
      StepIsLoose(ContextOf(cfg, u), Project(s, u), Project(s', u));
    }
  }

  lemma LooseRunGoesOn(cx: Context, run: seq<World>, w: World) returns (more: seq<World>)
    requires IsLooseRun(cx, run) && LooseStep(cx, run[|run| - 1], w)
    ensures IsLooseRun(cx, more) && |more| == |run| + 1 && more[|run|] == w
  {
    more := run + [w];
    assert more[..|more| - 1] == run;
  }

  lemma {:induction false} RunProjectsLoosely(cfg: Config, run: seq<System>, u: Triple) returns (own: seq<World>)
    requires IsSysRun(cfg, run) && u in cfg.triples
    ensures Shaped(cfg, run[|run| - 1])
    ensures IsLooseRun(ContextOf(cfg, u), own) && |own| == |run| && own[|own| - 1] == Project(run[|run| - 1], u)
  {
    if |run| == 1 {
      InitProjects(cfg, run[0], u);
      own := [Project(run[0], u)];
    } else {
      var s, s' := run[|run| - 2], run[|run| - 1];
      var before := RunProjectsLoosely(cfg, run[..|run| - 1], u);
      StepProjectsLoosely(cfg, s, s', u);
      own := LooseRunGoesOn(ContextOf(cfg, u), before, Project(s', u));
    }
  }

  /** However a deployment is keyed, routing, lifecycle and callers of each entity are those of an entity alone. */
  lemma EntityLooselyReachable(cfg: Config, s: System, u: Triple)
    requires SysReachable(cfg, s) && u in cfg.triples
    ensures Shaped(cfg, s) && LooselyReachable(ContextOf(cfg, u), Project(s, u))
  {
    var run :| IsSysRun(cfg, run) && run[|run| - 1] == s;
    var own := RunProjectsLoosely(cfg, run, u);
  }

  // ------------------------------------------------------------------------------------------
  // When joined ids collide, and what follows
  // ------------------------------------------------------------------------------------------

  /** A dash inside the type of `t` can be read as the one that ends the type of `u`. */
  ghost predicate ReadsAs(t: Triple, u: Triple) {
    exists mid :: Shifts(t, u, mid)
  }

  predicate Shifts(t: Triple, u: Triple, mid: string) {
    t.entityType == u.entityType + "-" + mid && u.entityId == mid + "-" + t.entityId
  }

  lemma LongerTypeReadsAs(t: Triple, u: Triple)
    requires AggregateId(t) == AggregateId(u) && |t.entityType| > |u.entityType|
    ensures ReadsAs(t, u)
  {
    var n, join := |u.entityType|, AggregateId(t);
    assert join[..n] == t.entityType[..n] && join[..n] == u.entityType;
    assert join[n] == t.entityType[n] && join[n] == '-';
    var mid := t.entityType[n + 1..];
    assert t.entityType == t.entityType[..n] + [t.entityType[n]] + mid;
    assert join[n + 1..] == mid + "-" + t.entityId && join[n + 1..] == u.entityId;
    assert Shifts(t, u, mid);
  }

  /**
   * Which entities share a joined id: those of the same type and id, whatever their tenants, and
   * those where a dash inside one's type takes the place of the dash between the other's type and id.
   */
  lemma JoinsAlikeIff(t: Triple, u: Triple)
    ensures AggregateId(t) == AggregateId(u) <==>
      (t.entityType == u.entityType && t.entityId == u.entityId) || ReadsAs(t, u) || ReadsAs(u, t)
  {
    if AggregateId(t) == AggregateId(u) {
      if |t.entityType| > |u.entityType| {
        LongerTypeReadsAs(t, u);
      } else if |u.entityType| > |t.entityType| {
        LongerTypeReadsAs(u, t);
      } else {
        var n := |t.entityType|;
        assert AggregateId(t)[..n] == t.entityType && AggregateId(u)[..n] == u.entityType;
        assert AggregateId(t)[n + 1..] == t.entityId && AggregateId(u)[n + 1..] == u.entityId;
      }
    }
    if ReadsAs(t, u) {
      ShiftedJoin(t, u);
    }
    if ReadsAs(u, t) {
      ShiftedJoin(u, t);
    }
  }

  lemma ShiftedJoin(t: Triple, u: Triple)
    requires ReadsAs(t, u)
    ensures AggregateId(t) == AggregateId(u)
  {
    var mid :| Shifts(t, u, mid);
    assert u.entityType + "-" + mid + "-" + t.entityId == u.entityType + "-" + (mid + "-" + t.entityId);
  }

  /** Exactly when another entity's snapshot never shows: when the joined ids differ. */
  lemma SnapshotsIsolatedIffIdsDiffer(t: Triple, u: Triple, snap: Snap)
    ensures AggregateId(t) != AggregateId(u) <==>
      forall snaps: map<string, Snap> :: Lookup(snaps[AggregateId(t) := snap], AggregateId(u)) == Lookup(snaps, AggregateId(u))
  {
    if AggregateId(t) == AggregateId(u) {
      var none: map<string, Snap> := map[];
      assert Lookup(none[AggregateId(t) := snap], AggregateId(u)) != Lookup(none, AggregateId(u));
    }
  }

  /**
   * An entity without events that shares its joined id with one that has been snapshotted recovers
   * into the other's state at the other's version; the store refuses its first append.
   */
  lemma SharedSnapshotMisleads(ent: Entity, offsets: Offsets, t: Triple, u: Triple, c: Committed, snaps: map<string, Snap>, snap: Snap)
    requires AggregateId(t) == AggregateId(u) && StreamOf(c, KeyOf(u)) == [] && OffsetOf(offsets, KeyOf(u)) == 0
    requires snap.version > 0 && ent.decode(snap.data).Some?
    ensures
      var view := View(c, snaps[AggregateId(t) := snap], u);
      && Rebuild(ent, 0, view.snap, view.stream) == Some((ent.decode(snap.data).value, snap.version))
      && Version(offsets, c, KeyOf(u)) != snap.version
  {
  }
}
