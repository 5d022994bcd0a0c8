/**
 * One entity through any number of activations: every interleaving of lookups, sends, actor steps,
 * deaths at any point and teardowns, over the entity's own stream, receipts and snapshot.
 */
module Cell {
  import opened Entities
  import opened EventStore
  import opened Recovery
  import opened ActorMachine

  /**
   * The store's version offset for the entity and the state it starts from in this store; `ent` is
   * its application, where it has one and the same in all its activations.
   */
  datatype Context = Context(ent: Entity, triple: Triple, offset: int, genesis: State) {
    /** Where recovery counts from: a negative offset counts as none. */
    function Base(): nat {
      if offset < 0 then 0 else offset
    }
  }

  /** What the stores hold for this one entity. */
  datatype Durable = Durable(stream: seq<Event>, receipts: map<string, Receipt>, snap: Option<Snap>)

  /** One committed execution: whose command, from which version on, which events. */
  datatype Entry = Entry(identity: Option<Identity>, envId: nat, version: nat, events: seq<Event>)

  datatype Place = Waiting | Held | Answered | Lost

  /** Which activation accepted the command, and where it is now. */
  datatype Fate = Fate(epoch: nat, place: Place)

  datatype Replied = Replied(id: nat, reply: Reply)

  /** What happened so far: committed executions, acceptor calls (by execution), replies, and every command's fate. */
  datatype History = History(log: seq<Entry>, accepts: seq<nat>, replies: seq<Replied>, fates: map<nat, Fate>)

  datatype World = World(
    store: Durable, live: Option<nat>, nextEpoch: nat, acts: map<nat, Activation>, hist: History)

  // ------------------------------------------------------------------------------------------
  // Steps
  // ------------------------------------------------------------------------------------------

  /** What the event store answers and becomes. A refusal is always possible and changes nothing. */
  ghost predicate StreamStep(offset: int, d: Durable, l: Label, d': Durable) {
    match l
    case LoadEvents(stream) => stream == d.stream && SameEvents(d, d')
    case Find(key, found) => found == Lookup(d.receipts, key) && SameEvents(d, d')
    case AppendDirect(expected, events, _) =>
      offset + |d.stream| == expected && d'.stream == d.stream + events && d'.receipts == d.receipts
    case StageEvents(expected, _) => offset + |d.stream| == expected && SameEvents(d, d')
    case ConfirmReceipt(r) => Reconcile(Lookup(d.receipts, r.key), r).Ok? && SameEvents(d, d')
    case CommitUnit(_, events, r, _) => d'.stream == d.stream + events && d'.receipts == d.receipts[r.key := r]
    case _ => SameEvents(d, d')
  }

  ghost predicate SameEvents(d: Durable, d': Durable) {
    d'.stream == d.stream && d'.receipts == d.receipts
  }

  /** What the snapshot store answers and becomes. */
  ghost predicate SnapStep(snap: Option<Snap>, l: Label, snap': Option<Snap>) {
    match l
    case LoadSnapshot(found) => found == snap && snap' == snap
    case SaveSnapshot(version, data) => snap' == Some(Snap(version, data))
    case _ => snap' == snap
  }

  ghost predicate StoreStep(offset: int, d: Durable, l: Label, d': Durable) {
    StreamStep(offset, d, l, d') && SnapStep(d.snap, l, d'.snap)
  }

  ghost predicate Records(h: History, e: nat, a: Activation, l: Label, h': History) {
    match l
    case Receive => a.queue != [] && h' == h.(fates := h.fates[a.queue[0].id := Fate(e, Held)])
    case AppendDirect(expected, events, index) =>
      a.pc.Executing? && index == |h.log| && h' == h.(log := h.log + [Entry(a.pc.env.identity, a.pc.env.id, expected, events)])
    case CommitUnit(expected, events, _, index) =>
      a.pc.Executing? && index == |h.log| && h' == h.(log := h.log + [Entry(a.pc.env.identity, a.pc.env.id, expected, events)])
    case CallAcceptor(index, _) => h' == h.(accepts := h.accepts + [index])
    case AnswerTo(id, reply) =>
      h' == h.(replies := h.replies + [Replied(id, reply)], fates := h.fates[id := Fate(e, Answered)])
    case _ => h' == h
  }

  /** Step of activation `e`, by application `ent`, whatever the stores make of it; the guard removes its own entry only. */
  ghost predicate Acted(cx: Context, ent: Entity, w: World, w': World, e: nat, l: Label) {
    && e in w.acts && e in w'.acts
    && Acts(ent, cx.Base(), cx.triple, w.acts[e], l, w'.acts[e])
    && Records(w.hist, e, w.acts[e], l, w'.hist)
    && w' == World(
         w'.store, if l.Deregister? && w.live == Some(e) then None else w.live, w.nextEpoch,
         w.acts[e := w'.acts[e]], w'.hist)
  }

  /** Step of activation `e`: its task and the stores agree on the label. */
  ghost predicate Moves(cx: Context, ent: Entity, w: World, w': World, e: nat, l: Label) {
    Acted(cx, ent, w, w', e, l) && StoreStep(cx.offset, w.store, l, w'.store)
  }

  /** `lookup_or_insert` on a missing entry: a new epoch, a new mailbox, a new task. */
  ghost predicate Activates(w: World, w': World, e: nat, capacity: nat) {
    && w.live.None? && e >= w.nextEpoch
    && w' == w.(live := Some(e), nextEpoch := e + 1, acts := w.acts[e := Fresh(capacity)])
  }

  /** Epochs are drawn from a counter shared with other entities. */
  ghost predicate EpochsPass(w: World, w': World) {
    w'.nextEpoch >= w.nextEpoch && w' == w.(nextEpoch := w'.nextEpoch)
  }

  /** An accepted `send`, by anyone who holds the mailbox of activation `e`. */
  ghost predicate Enqueues(w: World, w': World, e: nat, env: Envelope) {
    && e in w.acts && !w.acts[e].closed && |w.acts[e].queue| < w.acts[e].capacity
    && env.id !in w.hist.fates
    && w' == w.(
         acts := w.acts[e := w.acts[e].(queue := w.acts[e].queue + [env])],
         hist := w.hist.(fates := w.hist.fates[env.id := Fate(e, Waiting)]))
  }

  /** The task of activation `e` panics or is cancelled; a command in its hands loses its reply channel. */
  ghost predicate Dies(w: World, w': World, e: nat) {
    && e in w.acts && !Dead(w.acts[e])
    && w' == w.(
         acts := w.acts[e := Die(w.acts[e])],
         hist := if w.acts[e].pc.Executing?
                 then w.hist.(fates := w.hist.fates[w.acts[e].pc.env.id := Fate(e, Lost)]) else w.hist)
  }

  /** Any activation may bring any application. */
  ghost predicate Step(cx: Context, w: World, w': World) {
    || (exists ent, e, l :: Moves(cx, ent, w, w', e, l))
    || (exists e, capacity :: Activates(w, w', e, capacity))
    || EpochsPass(w, w')
    || (exists e, env :: Enqueues(w, w', e, env))
    || (exists e :: Dies(w, w', e))
  }

  ghost predicate Init(cx: Context, w: World) {
    && w.store.stream == [] && w.store.receipts == map[]
    && SnapInRange(cx.Base(), w.store.snap, [])
    && w.live == None && w.acts == map[]
    && w.hist == History([], [], [], map[])
  }

  ghost predicate IsRun(cx: Context, run: seq<World>) {
    |run| > 0 &&
    if |run| == 1 then Init(cx, run[0])
    else IsRun(cx, run[..|run| - 1]) && Step(cx, run[|run| - 2], run[|run| - 1])
  }

  /** Some run ends in `w`. */
  ghost predicate Reachable(cx: Context, w: World) {
    exists run :: IsRun(cx, run) && run[|run| - 1] == w
  }

  /** What it takes for the state to be the fold of the stream: a lawful application whose snapshots decode. */
  ghost predicate Sound(cx: Context) {
    Lawful(cx.ent) && RoundTrips(cx.ent)
  }

  /** A snapshot that is there at the start holds the state the entity starts from. */
  ghost predicate Rooted(cx: Context, w: World) {
    SnapValid(cx.ent, cx.genesis, cx.Base(), w.store.snap, [])
  }

  /** A step in which an activation that moves brings the entity's one application. */
  ghost predicate FixedStep(cx: Context, w: World, w': World) {
    || (exists e, l :: Moves(cx, cx.ent, w, w', e, l))
    || (exists e, capacity :: Activates(w, w', e, capacity))
    || EpochsPass(w, w')
    || (exists e, env :: Enqueues(w, w', e, env))
    || (exists e :: Dies(w, w', e))
  }

  ghost predicate IsFixedRun(cx: Context, run: seq<World>) {
    |run| > 0 &&
    if |run| == 1 then Init(cx, run[0])
    else IsFixedRun(cx, run[..|run| - 1]) && FixedStep(cx, run[|run| - 2], run[|run| - 1])
  }

  /** Some run with such a start and one application ends in `w`. */
  ghost predicate ReachableFromGenesis(cx: Context, w: World) {
    exists run :: IsFixedRun(cx, run) && Rooted(cx, run[0]) && run[|run| - 1] == w
  }

  lemma FixedIsStep(cx: Context, w: World, w': World)
    requires FixedStep(cx, w, w')
    ensures Step(cx, w, w')
  {
  }

  lemma {:induction false} FixedIsRun(cx: Context, run: seq<World>)
    requires IsFixedRun(cx, run)
    ensures IsRun(cx, run)
  {
    if |run| > 1 {
      FixedIsRun(cx, run[..|run| - 1]);
      FixedIsStep(cx, run[|run| - 2], run[|run| - 1]);
    }
  }

  // ------------------------------------------------------------------------------------------
  // The same with stores that may do anything: enough for routing, lifecycle and callers
  // ------------------------------------------------------------------------------------------

  /** Others draw epochs, and may change what the stores hold. */
  ghost predicate Elsewhere(w: World, w': World) {
    w'.nextEpoch >= w.nextEpoch && w' == w.(nextEpoch := w'.nextEpoch, store := w'.store)
  }

  ghost predicate LooseStep(cx: Context, w: World, w': World) {
    || (exists ent, e, l :: Acted(cx, ent, w, w', e, l))
    || (exists e, capacity :: Activates(w, w', e, capacity))
    || Elsewhere(w, w')
    || (exists e, env :: Enqueues(w, w', e, env))
    || (exists e :: Dies(w, w', e))
  }

  ghost predicate LooseInit(w: World) {
    w.live == None && w.acts == map[] && w.hist == History([], [], [], map[])
  }

  ghost predicate IsLooseRun(cx: Context, run: seq<World>) {
    |run| > 0 &&
    if |run| == 1 then LooseInit(run[0])
    else IsLooseRun(cx, run[..|run| - 1]) && LooseStep(cx, run[|run| - 2], run[|run| - 1])
  }

  ghost predicate LooselyReachable(cx: Context, w: World) {
    exists run :: IsLooseRun(cx, run) && run[|run| - 1] == w
  }

  // ------------------------------------------------------------------------------------------
  // The same with snapshots that may do anything: enough for operations, receipts and the stream
  // ------------------------------------------------------------------------------------------

  ghost predicate KeyedMoves(cx: Context, ent: Entity, w: World, w': World, e: nat, l: Label) {
    Acted(cx, ent, w, w', e, l) && StreamStep(cx.offset, w.store, l, w'.store)
  }

  /** Others draw epochs, and may replace the snapshot. */
  ghost predicate SnapsPass(w: World, w': World) {
    Elsewhere(w, w') && SameEvents(w.store, w'.store)
  }

  ghost predicate KeyedStep(cx: Context, w: World, w': World) {
    || (exists ent, e, l :: KeyedMoves(cx, ent, w, w', e, l))
    || (exists e, capacity :: Activates(w, w', e, capacity))
    || SnapsPass(w, w')
    || (exists e, env :: Enqueues(w, w', e, env))
    || (exists e :: Dies(w, w', e))
  }

  ghost predicate KeyedInit(w: World) {
    LooseInit(w) && w.store.stream == [] && w.store.receipts == map[]
  }

  ghost predicate IsKeyedRun(cx: Context, run: seq<World>) {
    |run| > 0 &&
    if |run| == 1 then KeyedInit(run[0])
    else IsKeyedRun(cx, run[..|run| - 1]) && KeyedStep(cx, run[|run| - 2], run[|run| - 1])
  }

  ghost predicate KeyedReachable(cx: Context, w: World) {
    exists run :: IsKeyedRun(cx, run) && run[|run| - 1] == w
  }

  lemma KeyedIsLoose(cx: Context, w: World, w': World)
    requires KeyedStep(cx, w, w')
    ensures LooseStep(cx, w, w')
  {
    if ent, e, l :| KeyedMoves(cx, ent, w, w', e, l) {
      assert Acted(cx, ent, w, w', e, l);
    }
  }

  lemma StepIsKeyed(cx: Context, w: World, w': World)
    requires Step(cx, w, w')
    ensures KeyedStep(cx, w, w')
  {
    if ent, e, l :| Moves(cx, ent, w, w', e, l) {
      assert KeyedMoves(cx, ent, w, w', e, l);
    } else if EpochsPass(w, w') {
      assert SnapsPass(w, w');
    }
  }

  lemma StepIsLoose(cx: Context, w: World, w': World)
    requires Step(cx, w, w')
    ensures LooseStep(cx, w, w')
  {
    if ent, e, l :| Moves(cx, ent, w, w', e, l) {
      assert Acted(cx, ent, w, w', e, l);
    } else if EpochsPass(w, w') {
      assert Elsewhere(w, w');
    }
  }

  // ------------------------------------------------------------------------------------------
  // Routing: at most one writer
  // ------------------------------------------------------------------------------------------

  /** An activation that has not given up its entry is the one the entry names. */
  ghost predicate Routed(w: World) {
    && (forall e :: e in w.acts ==> e < w.nextEpoch)
    && (forall e :: e in w.acts && !Detached(w.acts[e]) ==> w.live == Some(e))
    && (w.live.Some? ==> w.live.value in w.acts && !Detached(w.acts[w.live.value]))
  }

  ghost predicate Lives(w: World) {
    forall e :: e in w.acts ==> LifeOk(w.acts[e])
  }

  lemma MoveDetaches(cx: Context, ent: Entity, w: World, w': World, e: nat, l: Label)
    requires Acted(cx, ent, w, w', e, l)
    ensures Detached(w'.acts[e]) <==> Detached(w.acts[e]) || l.Deregister?
    ensures l.Deregister? ==> !Detached(w.acts[e])
  {
    ActDetaches(cx, ent, w.acts[e], l, w'.acts[e]);
  }

  lemma ActDetaches(cx: Context, ent: Entity, a: Activation, l: Label, a': Activation)
    requires Acts(ent, cx.Base(), cx.triple, a, l, a')
    ensures Detached(a') <==> Detached(a) || l.Deregister?
    ensures l.Deregister? ==> !Detached(a)
  {
    if a.pc.Executing? {
      CommandStaysAttached(cx, ent, a, l, a');
    } else if Dead(a) {
      GuardDetaches(a, l, a');
    } else {
      RunStaysAttached(cx, ent, a, l, a');
    }
  }

  lemma GuardDetaches(a: Activation, l: Label, a': Activation)
    requires Dead(a) && Guards(a, l, a')
    ensures Detached(a') <==> Detached(a) || l.Deregister?
    ensures l.Deregister? ==> !Detached(a)
  {
  }

  lemma RunStaysAttached(cx: Context, ent: Entity, a: Activation, l: Label, a': Activation)
    requires !a.pc.Executing? && !Dead(a) && Runs(ent, cx.Base(), a, l, a')
    ensures !Detached(a') && !l.Deregister?
  {
  }

  lemma CommandStaysAttached(cx: Context, ent: Entity, a: Activation, l: Label, a': Activation)
    requires a.pc.Executing? && Executes(ent, cx.triple, a, l, a')
    ensures !Detached(a') && !l.Deregister?
  {
  }

  lemma MoveKeepsRouted(cx: Context, ent: Entity, w: World, w': World, e: nat, l: Label)
    requires Routed(w) && Acted(cx, ent, w, w', e, l)
    ensures Routed(w')
  {
    MoveDetaches(cx, ent, w, w', e, l);
  }

  lemma StepKeepsRouted(cx: Context, w: World, w': World)
    requires Routed(w) && LooseStep(cx, w, w')
    ensures Routed(w')
  {
    if ent, e, l :| Acted(cx, ent, w, w', e, l) {
      MoveKeepsRouted(cx, ent, w, w', e, l);
    } else if e, capacity :| Activates(w, w', e, capacity) {
    } else if Elsewhere(w, w') {
    } else if e, env :| Enqueues(w, w', e, env) {
    } else {
      var e :| Dies(w, w', e);
    }
  }

  lemma StepKeepsLives(cx: Context, w: World, w': World)
    requires Lives(w) && LooseStep(cx, w, w')
    ensures Lives(w')
  {
    if ent, e, l :| Acted(cx, ent, w, w', e, l) {
      ActKeepsLife(ent, cx.Base(), cx.triple, w.acts[e], l, w'.acts[e]);
    } else if e, capacity :| Activates(w, w', e, capacity) {
    } else if Elsewhere(w, w') {
    } else if e, env :| Enqueues(w, w', e, env) {
    } else {
      var e :| Dies(w, w', e);
    }
  }
}
