/**
 * The entity actor as sequential code (crates/persistent-entity/src/actor.rs), and the proof that
 * what it does is a sequence of steps of the actor machine: everything proved of those steps, under
 * any interleaving and with a death at any point, is proved of this code.
 */
module Actor {
  import opened Entities
  import opened EventStore
  import opened Recovery
  import opened Lifecycle
  import opened Mailbox
  import opened Registry
  import opened ActorMachine
  import opened Cell
  import opened CellVersions
  import opened CellFold
  import opened Commands
  import opened Runtime

  /** An activation with its entity's view of the stores and the history so far. */
  datatype Local = Local(a: Activation, d: Durable, h: History)

  ghost predicate Does(cx: Context, e: nat, x: Local, l: Label, y: Local) {
    && Acts(cx.ent, cx.Base(), cx.triple, x.a, l, y.a)
    && StoreStep(cx.offset, x.d, l, y.d)
    && Records(x.h, e, x.a, l, y.h)
  }

  /** A sequence of steps of activation `e`, with nobody else in between. */
  ghost predicate Performs(cx: Context, e: nat, x: Local, trace: seq<Label>, y: Local) {
    exists steps :: Walk(cx, e, steps, trace, x, y)
  }

  ghost predicate Walk(cx: Context, e: nat, steps: seq<Local>, trace: seq<Label>, x: Local, y: Local) {
    && |steps| == |trace| + 1 && steps[0] == x && steps[|trace|] == y
    && forall i {:trigger DoesAt(cx, e, steps, trace, i)} :: 0 <= i < |trace| ==> DoesAt(cx, e, steps, trace, i)
  }

  ghost predicate DoesAt(cx: Context, e: nat, steps: seq<Local>, trace: seq<Label>, i: int)
    requires 0 <= i < |trace| && |steps| == |trace| + 1
  {
    Does(cx, e, steps[i], trace[i], steps[i + 1])
  }

  lemma PerformsNone(cx: Context, e: nat, x: Local)
    ensures Performs(cx, e, x, [], x)
  {
    assert Walk(cx, e, [x], [], x, x);
  }

  lemma PerformsMore(cx: Context, e: nat, x: Local, trace: seq<Label>, m: Local, l: Label, y: Local)
    requires Performs(cx, e, x, trace, m) && Does(cx, e, m, l, y)
    ensures Performs(cx, e, x, trace + [l], y)
  {
    var steps :| Walk(cx, e, steps, trace, x, m);
    var steps', trace' := steps + [y], trace + [l];
    forall i | 0 <= i < |trace'|
      ensures DoesAt(cx, e, steps', trace', i)
    {
      if i < |trace| { assert DoesAt(cx, e, steps, trace, i); }
    }
    assert Walk(cx, e, steps', trace', x, y);
  }

  ghost predicate Good(cx: Context, x: Local) {
    LifeOk(x.a) && StoreOk(cx, x.d, x.h) && ActOk(cx, x.d, x.h, x.a)
  }

  /** The same, and the state is the fold of the stream. */
  ghost predicate GoodFold(cx: Context, x: Local) {
    Good(cx, x) && FoldStore(cx, x.d, x.h) && FoldAct(cx, x.d, x.h, x.a)
  }

  lemma DoesKeepsGood(cx: Context, e: nat, x: Local, l: Label, y: Local)
    requires Good(cx, x) && Does(cx, e, x, l, y)
    ensures Good(cx, y)
  {
    ActKeepsLife(cx.ent, cx.Base(), cx.triple, x.a, l, y.a);
    ActKeeps(cx, cx.ent, x.d, x.h, e, x.a, l, y.a, y.d, y.h);
  }

  lemma {:induction false} WalkKeeps(cx: Context, e: nat, inv: Local -> bool, steps: seq<Local>, trace: seq<Label>, x: Local, y: Local, i: nat)
    requires forall m, l, m' :: inv(m) && Does(cx, e, m, l, m') ==> inv(m')
    requires inv(x) && Walk(cx, e, steps, trace, x, y) && i <= |trace|
    ensures inv(steps[i])
  {
    if i > 0 {
      WalkKeeps(cx, e, inv, steps, trace, x, y, i - 1);
      assert DoesAt(cx, e, steps, trace, i - 1);
    }
  }

  /** What the code does keeps the stores in order, whatever the application. */
  lemma PerformsKeepsGood(cx: Context, e: nat, x: Local, trace: seq<Label>, y: Local)
    requires Good(cx, x) && Performs(cx, e, x, trace, y)
    ensures Good(cx, y)
  {
    var steps :| Walk(cx, e, steps, trace, x, y);
    forall m, l, m' | Good(cx, m) && Does(cx, e, m, l, m') ensures Good(cx, m') {
      DoesKeepsGood(cx, e, m, l, m');
    }
    WalkKeeps(cx, e, m => Good(cx, m), steps, trace, x, y, |trace|);
  }

  /** With a lawful application whose snapshots decode, it keeps the state the fold of the stream. */
  lemma PerformsKeepsFold(cx: Context, e: nat, x: Local, trace: seq<Label>, y: Local)
    requires Sound(cx) && GoodFold(cx, x) && Performs(cx, e, x, trace, y)
    ensures GoodFold(cx, y)
  {
    var steps :| Walk(cx, e, steps, trace, x, y);
    forall m, l, m' | GoodFold(cx, m) && Does(cx, e, m, l, m') ensures GoodFold(cx, m') {
      DoesKeepsGood(cx, e, m, l, m');
      ActKeepsFold(cx, m.d, m.h, e, m.a, l, m'.a, m'.d, m'.h);
    }
    WalkKeeps(cx, e, m => GoodFold(cx, m), steps, trace, x, y, |trace|);
  }

  lemma PerformsKeepsLife(cx: Context, e: nat, x: Local, trace: seq<Label>, y: Local)
    requires LifeOk(x.a) && Performs(cx, e, x, trace, y)
    ensures LifeOk(y.a)
  {
    var steps :| Walk(cx, e, steps, trace, x, y);
    forall m: Local, l, m': Local | LifeOk(m.a) && Does(cx, e, m, l, m') ensures LifeOk(m'.a) {
      ActKeepsLife(cx.ent, cx.Base(), cx.triple, m.a, l, m'.a);
    }
    WalkKeeps(cx, e, (m: Local) => LifeOk(m.a), steps, trace, x, y, |trace|);
  }

  /** The replies as their callers see them. */
  function Sent(replies: seq<Replied>): seq<(nat, Told)> {
    if replies == [] then []
    else Sent(replies[..|replies| - 1]) + [(replies[|replies| - 1].id, Shown(replies[|replies| - 1].reply))]
  }

  lemma SentMore(replies: seq<Replied>, id: nat, reply: Reply, before: seq<(nat, Told)>, sent: seq<(nat, Told)>)
    requires Sent(replies) == before + sent
    ensures Sent(replies + [Replied(id, reply)]) == before + (sent + [(id, Shown(reply))])
  {
    assert (replies + [Replied(id, reply)])[..|replies|] == replies;
  }

  lemma RecoveryTrace(cx: Context, e: nat, x: Local, y: Local) returns (trace: seq<Label>)
    requires x.a.pc == Spawned && y == x.(a := Recovered(cx.ent, cx.Base(), x.a, x.d.snap, x.d.stream))
    ensures Performs(cx, e, x, trace, y)
  {
    trace := TwoSteps(cx, e, x, LoadSnapshot(x.d.snap), x.(a := x.a.(pc := SnapshotLoaded(x.d.snap))), LoadEvents(x.d.stream), y);
  }

  ghost function AfterAnswer(e: nat, x: Local): Local
    requires x.a.pc.Executing? && x.a.pc.exec.Answer?
  {
    Local(x.a.(pc := PcAfter(x.a.pc.draining, x.a.lifecycle)), x.d, x.h.(
      replies := x.h.replies + [Replied(x.a.pc.env.id, x.a.pc.exec.reply)],
      fates := x.h.fates[x.a.pc.env.id := Fate(e, Place.Answered)]))
  }

  lemma PerformsAnswer(cx: Context, e: nat, x: Local, trace: seq<Label>, m: Local) returns (more: seq<Label>)
    requires m.a.pc.Executing? && m.a.pc.exec.Answer? && Performs(cx, e, x, trace, m)
    ensures Performs(cx, e, x, more, AfterAnswer(e, m))
  {
    PerformsMore(cx, e, x, trace, m, AnswerTo(m.a.pc.env.id, m.a.pc.exec.reply), AfterAnswer(e, m));
    more := trace + [AnswerTo(m.a.pc.env.id, m.a.pc.exec.reply)];
  }

  ghost function AfterReceive(e: nat, x: Local, draining: bool): Local
    requires x.a.queue != []
  {
    Local(x.a.(queue := x.a.queue[1..], pc := Executing(x.a.queue[0], draining, Gate)), x.d,
          x.h.(fates := x.h.fates[x.a.queue[0].id := Fate(e, Held)]))
  }

  lemma PerformsReceive(cx: Context, e: nat, x: Local, trace: seq<Label>, m: Local, draining: bool) returns (more: seq<Label>)
    requires m.a.pc == (if draining then Draining else Serving) && m.a.queue != [] && Performs(cx, e, x, trace, m)
    ensures Performs(cx, e, x, more, AfterReceive(e, m, draining))
  {
    PerformsMore(cx, e, x, trace, m, Receive, AfterReceive(e, m, draining));
    more := trace + [Receive];
  }

  ghost function AfterRefusal(e: nat, x: Local): Local
    requires x.a.queue != [] && x.a.pc.Flushing?
  {
    Local(x.a.(queue := x.a.queue[1..]), x.d, x.h.(
      replies := x.h.replies + [Replied(x.a.queue[0].id, x.a.pc.reply)],
      fates := x.h.fates[x.a.queue[0].id := Fate(e, Place.Answered)]))
  }

  lemma PerformsRefusal(cx: Context, e: nat, x: Local, trace: seq<Label>, m: Local) returns (more: seq<Label>)
    requires m.a.pc.Flushing? && m.a.queue != [] && Performs(cx, e, x, trace, m)
    ensures Performs(cx, e, x, more, AfterRefusal(e, m))
  {
    PerformsMore(cx, e, x, trace, m, AnswerTo(m.a.queue[0].id, m.a.pc.reply), AfterRefusal(e, m));
    more := trace + [AnswerTo(m.a.queue[0].id, m.a.pc.reply)];
  }

  /** Saving a snapshot of the current state, or not, on the way to `to`. */
  lemma PerformsSave(cx: Context, e: nat, x: Local, trace: seq<Label>, m: Local, to: Pc, save: bool) returns (y: Local, more: seq<Label>)
    requires Performs(cx, e, x, trace, m) && (save ==> m.a.state.Some?)
    requires
      || (m.a.pc == SavingLast && to == Marking)
      || (m.a.pc.Executing? && m.a.pc.exec.MaybeSnapshot?
          && to == m.a.pc.(exec := MaybeAccept(m.a.pc.exec.events, m.a.pc.exec.commit)))
    ensures y.a == m.a.(pc := to) && y.h == m.h
    ensures y.d == if save then m.d.(snap := Some(Snap(m.a.version, cx.ent.encode(m.a.state.value)))) else m.d
    ensures Performs(cx, e, x, more, y)
  {
    var l := if save then SaveSnapshot(m.a.version, cx.ent.encode(m.a.state.value)) else Tau;
    y := Local(m.a.(pc := to), if save then m.d.(snap := Some(Snap(l.version, l.data))) else m.d, m.h);
    if m.a.pc.SavingLast? {
      LastSaveDoes(cx, e, m, l, y);
    } else {
      CommandSaveDoes(cx, e, m, l, y);
    }
    PerformsMore(cx, e, x, trace, m, l, y);
    more := trace + [l];
  }

  lemma LastSaveDoes(cx: Context, e: nat, m: Local, l: Label, y: Local)
    requires m.a.pc == SavingLast && y.a == m.a.(pc := Marking) && y.h == m.h
    requires l.Tau? || (l.SaveSnapshot? && m.a.state.Some? && l.version == m.a.version && l.data == cx.ent.encode(m.a.state.value))
    requires y.d == if l.SaveSnapshot? then m.d.(snap := Some(Snap(l.version, l.data))) else m.d
    ensures Does(cx, e, m, l, y)
  {
  }

  lemma CommandSaveDoes(cx: Context, e: nat, m: Local, l: Label, y: Local)
    requires m.a.pc.Executing? && m.a.pc.exec.MaybeSnapshot?
    requires y.a == At(m.a, MaybeAccept(m.a.pc.exec.events, m.a.pc.exec.commit)) && y.h == m.h
    requires l.Tau? || (l.SaveSnapshot? && m.a.state.Some? && l.version == m.a.version && l.data == cx.ent.encode(m.a.state.value))
    requires y.d == if l.SaveSnapshot? then m.d.(snap := Some(Snap(l.version, l.data))) else m.d
    ensures Does(cx, e, m, l, y)
  {
  }

  /** The lifecycle state after a command that failed the actor, or did not. */
  function AfterTelling(failed: bool, life: EntityState): EntityState {
    if failed && Legal(life, Failed) then Failed else life
  }

  lemma RefusesOne(sent: seq<(nat, Told)>, queue: seq<Envelope>, told: Told)
    requires queue != []
    ensures sent + [(queue[0].id, told)] + Refusals(queue[1..], told) == sent + Refusals(queue, told)
  {
  }

  lemma PerformsGate(cx: Context, e: nat, x: Local, trace: seq<Label>, m: Local) returns (y: Local, more: seq<Label>)
    requires Performs(cx, e, x, trace, m) && m.a.pc.Executing? && m.a.pc.exec == Gate
    ensures y == m.(a := At(m.a, GateVerdict(m.a.state, m.a.pc.env.identity, m.d.receipts)))
    ensures Performs(cx, e, x, more, y)
  {
    var id := m.a.pc.env.identity;
    var l := if m.a.state.None? || id.None? then Tau else Find(id.value.key, Lookup(m.d.receipts, id.value.key));
    y := m.(a := At(m.a, GateVerdict(m.a.state, id, m.d.receipts)));
    PerformsMore(cx, e, x, trace, m, l, y);
    more := trace + [l];
  }

  lemma PerformsHandOver(cx: Context, e: nat, x: Local, trace: seq<Label>, m: Local, effects: Effects) returns (y: Local, more: seq<Label>)
    requires Performs(cx, e, x, trace, m) && m.a.pc.Executing? && m.a.pc.exec.MaybeAccept? && m.a.state.Some?
    ensures y.a == At(m.a, Answer(
      if effects.NoneDescribed? || effects.Taken?
      then DoneWithEvents(m.a.state.value, m.a.pc.exec.events, m.a.pc.exec.commit)
      else EffectsNotAccepted(m.a.state.value, m.a.pc.exec.events, m.a.pc.exec.commit)))
    ensures y.d == m.d && y.h.replies == m.h.replies
    ensures Performs(cx, e, x, more, y)
  {
    var st, events, commit := m.a.state.value, m.a.pc.exec.events, m.a.pc.exec.commit;
    var called := effects.Taken? || effects.NotTaken?;
    var l := if called then CallAcceptor(commit, effects.Taken?) else Tau;
    var h := if called then m.h.(accepts := m.h.accepts + [commit]) else m.h;
    if effects.NoneDescribed? || effects.Taken? {
      y := Local(At(m.a, Answer(DoneWithEvents(st, events, commit))), m.d, h);
      PerformsMore(cx, e, x, trace, m, l, y);
    } else {
      y := Local(At(m.a, Answer(EffectsNotAccepted(st, events, commit))), m.d, h);
      PerformsMore(cx, e, x, trace, m, l, y);
    }
    more := trace + [l];
  }

  // ------------------------------------------------------------------------------------------
  // The store's answers, as steps
  // ------------------------------------------------------------------------------------------

  /** What the store did for a unit of work: staging and confirming met no objection, and the commit landed. */
  ghost predicate UnitLanded(offset: int, d: Durable, expected: nat, events: seq<Event>, r: Receipt, d': Durable) {
    && (events != [] ==> StoreStep(offset, d, StageEvents(expected, events), d))
    && StoreStep(offset, d, ConfirmReceipt(r), d)
    && StoreStep(offset, d, CommitUnit(expected, events, r, 0), d')
  }

  lemma LandedIsPersisted(cx: Context, d: Durable, version: nat, id: Identity, events: seq<Event>, r: Receipt, d': Durable)
    requires r == ReceiptFor(cx.triple, id, OutcomeFor(version, events)) && UnitLanded(cx.offset, d, version, events, r, d')
    ensures d' == Persisted(cx.triple, d, version, Some(id), events)
  {
  }

  lemma ReadyViews(offsets: Offsets, t: Triple, c: Committed, snaps: map<string, Snap>,
                   expected: nat, events: seq<Event>, r: Receipt)
    requires ReceiptKeyOf(r).stream == KeyOf(t)
    requires events != [] ==> Version(offsets, c, KeyOf(t)) == expected
    requires Reconcile(Lookup(c.receipts, ReceiptKeyOf(r)), r).Ok?
    ensures events != [] ==> StoreStep(OffsetOf(offsets, KeyOf(t)), View(c, snaps, t), StageEvents(expected, events), View(c, snaps, t))
    ensures StoreStep(OffsetOf(offsets, KeyOf(t)), View(c, snaps, t), ConfirmReceipt(r), View(c, snaps, t))
  {
    OwnView(offsets, t, c, snaps, ConfirmReceipt(r), c, snaps);
  }

  lemma LandedView(t: Triple, c: Committed, c': Committed, snaps: map<string, Snap>, offset: int,
                   expected: nat, events: seq<Event>, r: Receipt)
    requires ReceiptKeyOf(r).stream == KeyOf(t)
    requires c' == CommitAll(c, ActorUnit(t, events, r))
    ensures StoreStep(offset, View(c, snaps, t), CommitUnit(expected, events, r, 0), View(c', snaps, t))
  {
    CommitViews(c, t, events, r, c', KeyOf(t));
  }

  /** The unit of work of an identified command: staged, confirmed, committed; without events, nothing is staged. */
  lemma UnitTrace(cx: Context, e: nat, x: Local, y: Local, events: seq<Event>, r: Receipt) returns (trace: seq<Label>)
    requires x.a.pc.Executing? && x.a.pc.env.identity.Some? && x.a.state.Some?
    requires x.a.pc.exec == (if events == [] then Confirm([]) else Persist(events))
    requires r == ReceiptOf(cx.triple, x.a, x.a.pc.env.identity.value, events)
    requires UnitLanded(cx.offset, x.d, x.a.version, events, r, y.d)
    requires y.a == At(x.a, if events == [] then Answer(DoneWithoutEvents(x.a.state.value)) else Apply(events, |x.h.log|))
    requires y.h == x.h.(log := x.h.log + [Entry(x.a.pc.env.identity, x.a.pc.env.id, x.a.version, events)])
    ensures Performs(cx, e, x, trace, y)
  {
    var staged, confirmed := x.(a := At(x.a, Confirm(events))), x.(a := At(x.a, Commit(events)));
    var l := CommitUnit(x.a.version, events, r, |x.h.log|);
    trace := TwoSteps(cx, e, staged, ConfirmReceipt(r), confirmed, l, y);
    if events != [] {
      trace := StepThen(cx, e, x, StageEvents(x.a.version, events), staged, trace, y);
    }
  }

  lemma StepThen(cx: Context, e: nat, x: Local, l: Label, m: Local, rest: seq<Label>, y: Local) returns (trace: seq<Label>)
    requires Does(cx, e, x, l, m) && Performs(cx, e, m, rest, y)
    ensures Performs(cx, e, x, trace, y)
  {
    OneStep(cx, e, x, l, m);
    PerformsTrans(cx, e, x, [l], m, rest, y);
    trace := [l] + rest;
  }

  lemma OneStep(cx: Context, e: nat, x: Local, l: Label, y: Local)
    requires Does(cx, e, x, l, y)
    ensures Performs(cx, e, x, [l], y)
  {
    PerformsNone(cx, e, x);
    PerformsMore(cx, e, x, [], x, l, y);
    assert [] + [l] == [l];
  }

  lemma TwoSteps(cx: Context, e: nat, x: Local, l: Label, m: Local, l': Label, y: Local) returns (trace: seq<Label>)
    requires Does(cx, e, x, l, m) && Does(cx, e, m, l', y)
    ensures Performs(cx, e, x, trace, y)
  {
    OneStep(cx, e, x, l, m);
    PerformsMore(cx, e, x, [l], m, l', y);
    trace := [l] + [l'];
  }

  lemma PerformsTrans(cx: Context, e: nat, x: Local, s: seq<Label>, y: Local, t: seq<Label>, z: Local)
    requires Performs(cx, e, x, s, y) && Performs(cx, e, y, t, z)
    ensures Performs(cx, e, x, s + t, z)
  {
    var first :| Walk(cx, e, first, s, x, y);
    var second :| Walk(cx, e, second, t, y, z);
    var steps, trace := first + second[1..], s + t;
    forall i | 0 <= i < |trace|
      ensures DoesAt(cx, e, steps, trace, i)
    {
      if i < |s| {
        assert DoesAt(cx, e, first, s, i);
      } else {
        assert DoesAt(cx, e, second, t, i - |s|);
      }
    }
    assert Walk(cx, e, steps, trace, x, z);
  }

  ghost predicate Looking(c: Committed, snaps: map<string, Snap>) {
    true
  }

  class EntityActor {
    const ent: Entity
    const triple: Triple
    const mailbox: BoundedMailbox<Envelope>
    const lifecycle: LifecycleStateMachine
    const tx: StateCell
    const persistence: PersistenceFacade
    const registry: EntityRegistry<BoundedMailbox<Envelope>>
    const app: Application
    var state: Option<State>
    var version: nat
    /** What went out on reply channels, with the command each one belongs to. */
    var replies: seq<(nat, Told)>

    // The machine this code is a run of.
    ghost const genesis: State
    ghost const epoch: nat
    ghost const start: Local
    /** This entity's view of the stores, by a name that hides its definition; `Looking` brings it out. */
    ghost const view: (Committed, map<string, Snap>) -> Durable
    ghost var pc: Pc
    ghost var hist: History
    ghost var trace: seq<Label>

    /** The runtime hands out no blank tenant. */
    ghost predicate Configured() {
      && !Blank(triple.tenant)
      && forall c, snaps {:trigger Looking(c, snaps)} :: Looking(c, snaps) ==> view(c, snaps) == View(c, snaps, triple)
    }

    ghost function Cx(): Context {
      Context(ent, triple, OffsetOf(persistence.eventStore.offsets, KeyOf(triple)), genesis)
    }

    ghost function Disk(): Durable
      reads this, persistence.eventStore, persistence.snapshotStore
    {
      view(persistence.eventStore.state, persistence.snapshotStore.snapshots)
    }

    lemma Look()
      requires Configured()
      ensures Disk() == View(persistence.eventStore.state, persistence.snapshotStore.snapshots, triple)
    {
      assert Looking(persistence.eventStore.state, persistence.snapshotStore.snapshots);
    }

    ghost function Act(): Activation
      reads this, mailbox, lifecycle, tx
    {
      Activation(mailbox.capacity, mailbox.queue, mailbox.closed, state, version, lifecycle.currentState, tx.state, pc)
    }

    ghost function Here(): Local
      reads this, mailbox, lifecycle, tx, persistence.eventStore, persistence.snapshotStore
    {
      Local(Act(), Disk(), hist)
    }

    /** The routing entry of this activation is there. */
    ghost predicate Routed()
      reads registry`active
    {
      triple in registry.active && registry.active[triple].epoch == epoch
    }

    /**
     * All that was done so far is a run of the machine, what went out is what that run sent, and the
     * step that gives up the routing entry is not taken while the entry is there.
     */
    ghost predicate Tracks()
      reads this, mailbox, lifecycle, tx, persistence.eventStore, persistence.snapshotStore, registry`active
    {
      && Configured()
      && Performs(Cx(), epoch, start, trace, Here())
      && Sent(hist.replies) == Sent(start.h.replies) + replies
      && (pc.GuardPublishing? || pc.Finished? ==> !Routed())
    }

    constructor (ent: Entity, triple: Triple, mailbox: BoundedMailbox<Envelope>, tx: StateCell, persistence: PersistenceFacade,
                 registry: EntityRegistry<BoundedMailbox<Envelope>>, app: Application, ghost genesis: State, ghost epoch: nat, ghost hist: History)
      requires !Blank(triple.tenant)
      requires tx.state == Recovering
      ensures this.ent == ent && this.triple == triple && this.mailbox == mailbox && this.tx == tx && this.persistence == persistence
      ensures this.registry == registry && this.app == app && this.epoch == epoch && this.genesis == genesis && fresh(lifecycle) && start == Here() && replies == []
      ensures Tracks() && Act() == Fresh(mailbox.capacity).(queue := mailbox.queue, closed := mailbox.closed) && this.hist == hist
    {
      this.ent, this.triple, this.mailbox, this.tx, this.persistence := ent, triple, mailbox, tx, persistence;
      this.registry, this.app := registry, app;
      lifecycle := new LifecycleStateMachine();
      state, version, replies := None, 0, [];
      this.genesis, this.epoch, this.hist, pc, trace := genesis, epoch, hist, Spawned, [];
      view := (c, snaps) => View(c, snaps, triple);
      start := Local(
        Activation(mailbox.capacity, mailbox.queue, mailbox.closed, None, 0, Recovering, Recovering, Spawned),
        View(persistence.eventStore.state, persistence.snapshotStore.snapshots, triple), hist);
      new;
      PerformsNone(Cx(), this.epoch, start);
    }

    /** What was done keeps the stores in order; with a sound application, also the state the fold of the stream. */
    lemma StaysGood()
      requires Tracks() && Good(Cx(), start)
      ensures Good(Cx(), Here())
      ensures Sound(Cx()) && GoodFold(Cx(), start) ==> GoodFold(Cx(), Here())
    {
      PerformsKeepsGood(Cx(), epoch, start, trace, Here());
      if Sound(Cx()) && GoodFold(Cx(), start) {
        PerformsKeepsFold(Cx(), epoch, start, trace, Here());
      }
    }

    /** Notes the step that led from `m` to where the actor stands now. */
    ghost method Note(m: Local, l: Label)
      requires Configured() && Performs(Cx(), epoch, start, trace, m) && Does(Cx(), epoch, m, l, Here())
      modifies this`trace
      ensures Here() == old(Here()) && Performs(Cx(), epoch, start, trace, Here())
    {
      PerformsMore(Cx(), epoch, start, trace, m, l, Here());
      trace := trace + [l];
    }

    /** The same for several steps. */
    ghost method NoteAll(m: Local, more: seq<Label>)
      requires Configured() && Performs(Cx(), epoch, start, trace, m) && Performs(Cx(), epoch, m, more, Here())
      modifies this`trace
      ensures Here() == old(Here()) && Performs(Cx(), epoch, start, trace, Here())
    {
      PerformsTrans(Cx(), epoch, start, trace, m, more, Here());
      trace := trace + more;
    }

    /** The verdict of the state machine is ignored; the new state is published all the same. */
    method Transition(to: EntityState)
      modifies lifecycle, tx
      ensures Act() == ActorMachine.Transition(old(Act()), to)
    {
      var verdict := lifecycle.TransitionTo(to);
      tx.state := to;
    }

    /** What the stores hold for recovery: the snapshot and the uncovered suffix of the stream. */
    method LoadOwn() returns (snap: Option<Snap>, events: seq<Event>)
      requires Configured()
      ensures snap == Disk().snap && events == Uncovered(Disk().stream, Cx().Base(), SnapVersion(snap))
    {
      Look();
      var loaded := persistence.LoadForRecovery(triple.entityType, triple.entityId, Some(triple.tenant));
      snap, events := loaded.value.0, EventsOf(loaded.value.1);
    }

    /** Snapshot first, then the uncovered suffix of the stream. */
    method RebuildStateFromPersistence() returns (r: Option<(State, nat)>)
      requires Configured()
      ensures r == Rebuild(ent, Cx().Base(), Disk().snap, Disk().stream)
    {
      var snap, events := LoadOwn();
      var start := SnapState(ent, snap);
      if events == [] {
        return Some((start, SnapVersion(snap)));
      }
      match ent.applyEvents(start, events)
      case None => return None;
      case Some(st) => return Some((st, SnapVersion(snap) + |events|));
    }

    /** Recovery: two steps of the machine, into `Active` with the rebuilt state or into `Failed`. */
    method RecoverState()
      requires Tracks() && pc == Spawned
      modifies this`state, this`version, this`pc, this`trace, lifecycle, tx
      ensures Tracks() && Act() == Recovered(ent, Cx().Base(), old(Act()), Disk().snap, Disk().stream)
    {
      ghost var m := Here();
      var rebuilt := RebuildStateFromPersistence();
      if rebuilt.Some? {
        state := Some(rebuilt.value.0);
        version := rebuilt.value.1;
        pc := Serving;
        Transition(Active);
      } else {
        pc := CloseToFlush(NotActive);
        Transition(Failed);
      }
      ghost var more := RecoveryTrace(Cx(), epoch, m, Here());
      NoteAll(m, more);
    }

    /** The receipt gate: leave to go on, or a reply from the receipt or against it. */
    method PassGate(env: Envelope) returns (told: Option<Told>)
      requires Tracks() && pc.Executing? && pc.env == env && pc.exec == Gate
      modifies this`pc, this`hist, this`trace
      ensures Tracks() && pc == old(pc).(exec := GateVerdict(state, env.identity, Disk().receipts))
      ensures told.None? ==> pc.exec == Handle && state.Some?
      ensures told.Some? ==> pc.exec.Answer? && told.value == Shown(pc.exec.reply)
    {
      ghost var y, more := PerformsGate(Cx(), epoch, start, trace, Here());
      told := None;
      if state.None? {
        told := Some(ToldNotActive);
      } else if env.identity.Some? {
        var id := env.identity.value;
        var found := FindOwnReceipt(id.key);
        if found.Some? {
          if found.value.fingerprint == id.fingerprint {
            told := Some(ToldReplayed(found.value.outcome));
          } else {
            told := Some(ToldConflict(id.key));
          }
        }
      }
      GoTo(y, more);
    }

    method FindOwnReceipt(key: string) returns (found: Option<Receipt>)
      requires Configured()
      ensures found == Lookup(Disk().receipts, key)
    {
      Look();
      var r := persistence.FindReceipt(triple.entityType, triple.entityId, Some(triple.tenant), key);
      LookupReceipt(persistence.eventStore.state, KeyOf(triple), key);
      found := r.value;
    }

    /** The direct append, seen from this entity. */
    method AppendOwn(events: seq<Event>) returns (ok: bool)
      requires Configured()
      modifies persistence.eventStore
      ensures ok <==> Cx().offset + |old(Disk()).stream| == version
      ensures Disk() == if ok then old(Disk()).(stream := old(Disk()).stream + events) else old(Disk())
    {
      Look();
      ghost var c, snaps := persistence.eventStore.state, persistence.snapshotStore.snapshots;
      var r := persistence.PersistEvents(triple.entityType, triple.entityId, Some(triple.tenant), version, events);
      ok := r.Ok?;
      Look();
      OwnView(persistence.eventStore.offsets, triple, c, snaps, if ok then AppendDirect(version, events, 0) else StoreRefuses,
              persistence.eventStore.state, snaps);
    }

    /** The unit of work, seen from this entity: all of it, or nothing. */
    method CommitOwn(events: seq<Event>, receipt: Receipt) returns (ok: bool)
      requires Configured() && ReceiptKeyOf(receipt).stream == KeyOf(triple) && receipt.key !in Disk().receipts
      modifies persistence.eventStore
      ensures ok <==> events == [] || Cx().offset + |old(Disk()).stream| == version
      ensures ok ==> UnitLanded(Cx().offset, old(Disk()), version, events, receipt, Disk())
      ensures !ok ==> Disk() == old(Disk())
    {
      Look();
      ghost var c, snaps := persistence.eventStore.state, persistence.snapshotStore.snapshots;
      LookupReceipt(c, KeyOf(triple), receipt.key);
      var r := persistence.PersistEventsWithReceipt(
        triple.entityType, triple.entityId, Some(triple.tenant), version, events, receipt);
      ok := r.Ok?;
      Look();
      if ok {
        ReadyViews(persistence.eventStore.offsets, triple, c, snaps, version, events, receipt);
        LandedView(triple, c, persistence.eventStore.state, snaps, Cx().offset, version, events, receipt);
      }
    }

    /** The handler's verdict on the command. */
    method Decide(env: Envelope) returns (handled: Option<seq<Event>>)
      requires Tracks() && pc.Executing? && pc.env == env && pc.exec == Handle && state.Some?
      modifies this`pc, this`trace
      ensures Tracks() && pc.Executing? && pc == old(pc).(exec := pc.exec)
      ensures handled == app.handleCommand(env, state.value)
      ensures pc.exec ==
        match handled
        case None => Answer(HandlerFailed)
        case Some(events) =>
          if events != [] then Exec.Persist(events)
          else if env.identity.Some? then Confirm([])
          else Answer(DoneWithoutEvents(state.value))
    {
      ghost var m := Here();
      handled := app.handleCommand(env, state.value);
      ghost var exec, l := Answer(HandlerFailed), HandlerFails;
      if handled.Some? {
        l := HandlerReturns(handled.value);
        exec := if handled.value != [] then Exec.Persist(handled.value)
                else if env.identity.Some? then Confirm([])
                else Answer(DoneWithoutEvents(state.value));
      }
      pc := pc.(exec := exec);
      Note(m, l);
    }

    /** A command without identity: the direct append. */
    method PersistDirect(env: Envelope, events: seq<Event>) returns (ok: bool)
      requires Tracks() && pc.Executing? && pc.env == env && pc.exec == Persist(events) && env.identity.None? && events != []
      modifies this`pc, this`hist, this`trace, persistence.eventStore, lifecycle, tx
      ensures Tracks() && pc.Executing?
      ensures pc == old(pc).(exec := if ok then Apply(events, |old(hist).log|) else Answer(PersistenceFailed))
      ensures ok <==> Cx().offset + |old(Disk()).stream| == version
      ensures Disk() == if ok then Persisted(triple, old(Disk()), version, None, events) else old(Disk())
      ensures lifecycle.currentState == AfterTelling(!ok, old(lifecycle.currentState))
    {
      ghost var m := Here();
      ok := AppendOwn(events);
      if ok {
        pc := pc.(exec := Apply(events, |hist.log|));
        hist := hist.(log := hist.log + [Entry(env.identity, env.id, version, events)]);
        NoteAppend(m, events);
      } else {
        pc := pc.(exec := Answer(PersistenceFailed));
        Transition(Failed);
        NoteRefusal(m, events);
      }
    }

    ghost method NoteAppend(m: Local, events: seq<Event>)
      requires Configured() && Performs(Cx(), epoch, start, trace, m)
      requires m.a.pc.Executing? && m.a.pc.env.identity.None? && m.a.pc.exec == Persist(events)
      requires Cx().offset + |m.d.stream| == m.a.version && Disk() == m.d.(stream := m.d.stream + events)
      requires Act() == At(m.a, Apply(events, |m.h.log|))
      requires hist == m.h.(log := m.h.log + [Entry(m.a.pc.env.identity, m.a.pc.env.id, m.a.version, events)])
      modifies this`trace
      ensures Here() == old(Here()) && Performs(Cx(), epoch, start, trace, Here())
    {
      Note(m, AppendDirect(m.a.version, events, |m.h.log|));
    }

    /** A command with identity: events and receipt in one unit of work. */
    method PersistWithReceipt(env: Envelope, events: seq<Event>) returns (ok: bool)
      requires Tracks() && pc.Executing? && pc.env == env && env.identity.Some? && state.Some?
      requires env.identity.value.key !in Disk().receipts
      requires pc.exec == if events == [] then Confirm([]) else Exec.Persist(events)
      modifies this`pc, this`hist, this`trace, persistence.eventStore, lifecycle, tx
      ensures Tracks() && pc.Executing?
      ensures pc == old(pc).(exec :=
        if !ok then Answer(PersistenceFailed)
        else if events == [] then Answer(DoneWithoutEvents(state.value)) else Apply(events, |old(hist).log|))
      ensures ok <==> events == [] || Cx().offset + |old(Disk()).stream| == version
      ensures Disk() == if ok then Persisted(triple, old(Disk()), version, env.identity, events) else old(Disk())
      ensures lifecycle.currentState == AfterTelling(!ok, old(lifecycle.currentState))
    {
      ghost var m := Here();
      ghost var receipt;
      ok, receipt := CommitOperation(env.identity.value, events);
      if ok {
        pc := pc.(exec := if events == [] then Answer(DoneWithoutEvents(state.value)) else Apply(events, |hist.log|));
        hist := hist.(log := hist.log + [Entry(env.identity, env.id, version, events)]);
        NoteUnit(m, events, receipt);
      } else {
        pc := pc.(exec := Answer(PersistenceFailed));
        if events != [] {
          Transition(Failed);
        }
        NoteRefusal(m, events);
      }
    }

    /** Makes the receipt of an operation and commits it with its events. */
    method CommitOperation(id: Identity, events: seq<Event>) returns (ok: bool, ghost receipt: Receipt)
      requires Configured() && id.key !in Disk().receipts
      modifies persistence.eventStore
      ensures receipt == ReceiptFor(triple, id, OutcomeFor(version, events))
      ensures ok <==> events == [] || Cx().offset + |old(Disk()).stream| == version
      ensures ok ==> UnitLanded(Cx().offset, old(Disk()), version, events, receipt, Disk())
      ensures Disk() == if ok then Persisted(triple, old(Disk()), version, Some(id), events) else old(Disk())
    {
      // The range of a batch of events is never empty or inverted, so it can always be encoded.
      var outcome := if events == [] then NoEvents else EventRange(version + 1, version + |events|).value;
      var r := ReceiptFor(triple, id, outcome);
      receipt := r;
      ghost var d := Disk();
      ok := CommitOwn(events, r);
      if ok {
        LandedIsPersisted(Cx(), d, version, id, events, r, Disk());
      }
    }

    ghost method NoteUnit(m: Local, events: seq<Event>, receipt: Receipt)
      requires Configured() && Performs(Cx(), epoch, start, trace, m)
      requires m.a.pc.Executing? && m.a.pc.env.identity.Some? && m.a.state.Some?
      requires m.a.pc.exec == if events == [] then Confirm([]) else Exec.Persist(events)
      requires receipt == ReceiptOf(triple, m.a, m.a.pc.env.identity.value, events)
      requires UnitLanded(Cx().offset, m.d, m.a.version, events, receipt, Disk())
      requires Act() == At(m.a, if events == [] then Answer(DoneWithoutEvents(m.a.state.value)) else Apply(events, |m.h.log|))
      requires hist == m.h.(log := m.h.log + [Entry(m.a.pc.env.identity, m.a.pc.env.id, m.a.version, events)])
      modifies this`trace
      ensures Here() == old(Here()) && Performs(Cx(), epoch, start, trace, Here())
    {
      ghost var more := UnitTrace(Cx(), epoch, m, Here(), events, receipt);
      NoteAll(m, more);
    }

    ghost method NoteRefusal(m: Local, events: seq<Event>)
      requires Configured() && Performs(Cx(), epoch, start, trace, m)
      requires m.a.pc.Executing? && m.a.pc.exec == if events == [] then Confirm([]) else Exec.Persist(events)
      requires Act() == Refused(m.a, events) && Disk() == m.d && hist == m.h
      modifies this`trace
      ensures Here() == old(Here()) && Performs(Cx(), epoch, start, trace, Here())
    {
      Note(m, StoreRefuses);
    }

    /** The committed events go into the state; an event that cannot be applied fails the actor. */
    method ApplyCommitted(events: seq<Event>) returns (ok: bool)
      requires Tracks() && pc.Executing? && pc.exec.Apply? && pc.exec.events == events && state.Some?
      modifies this`state, this`version, this`pc, this`trace, lifecycle, tx
      ensures Tracks() && pc.Executing? && state.Some?
      ensures pc == old(pc).(exec := if ok then MaybeSnapshot(events, old(pc).exec.commit) else Answer(PersistenceFailed))
      ensures ok <==> ent.applyEvents(old(state).value, events).Some?
      ensures state == if ok then ent.applyEvents(old(state).value, events) else old(state)
      ensures version == if ok then old(version) + |events| else old(version)
      ensures lifecycle.currentState == AfterTelling(!ok, old(lifecycle.currentState))
    {
      ghost var m := Here();
      var applied := ent.applyEvents(state.value, events);
      ok := applied.Some?;
      if ok {
        state := applied;
        version := version + |events|;
        pc := pc.(exec := MaybeSnapshot(events, pc.exec.commit));
      } else {
        pc := pc.(exec := Answer(PersistenceFailed));
        Transition(Failed);
      }
      Note(m, Tau);
    }

    method SaveOwnSnapshot(data: Payload)
      requires Configured()
      modifies persistence.snapshotStore
      ensures Disk() == old(Disk()).(snap := Some(Snap(version, data)))
    {
      Look();
      persistence.StoreSnapshot(AggregateId(triple), Some(triple.tenant), version, data);
      Look();
    }

    method SnapshotIfDue(events: seq<Event>)
      requires Tracks() && pc.Executing? && pc.exec.MaybeSnapshot? && pc.exec.events == events && state.Some?
      modifies this`pc, this`hist, this`trace, persistence.snapshotStore
      ensures Tracks() && pc == old(pc).(exec := MaybeAccept(events, old(pc).exec.commit))
      ensures Disk() == if app.shouldTakeSnapshot(version, |events|)
                        then old(Disk()).(snap := Some(Snap(version, ent.encode(state.value)))) else old(Disk())
    {
      var due := app.shouldTakeSnapshot(version, |events|);
      ghost var y, more := PerformsSave(Cx(), epoch, start, trace, Here(), pc.(exec := MaybeAccept(events, pc.exec.commit)), due);
      if due {
        SaveOwnSnapshot(ent.encode(state.value));
      }
      GoTo(y, more);
    }

    /** Hands the described effects to the acceptor, if there are any and if there is one. */
    method HandOver(env: Envelope, events: seq<Event>) returns (told: Told)
      requires Tracks() && pc.Executing? && pc.env == env && pc.exec.MaybeAccept? && pc.exec.events == events && state.Some?
      modifies this`pc, this`hist, this`trace
      ensures Tracks() && pc.Executing? && pc == old(pc).(exec := pc.exec)
      ensures pc.exec.Answer? && told == Shown(pc.exec.reply)
      ensures told == var effects := app.acceptEffects(env, state.value, events);
        if effects.NoneDescribed? || effects.Taken? then ToldEvents(state.value, events) else ToldEffectsFailed(state.value, events)
    {
      var effects := app.acceptEffects(env, state.value, events);
      ghost var y, more := PerformsHandOver(Cx(), epoch, start, trace, Here(), effects);
      if effects.NoneDescribed? || effects.Taken? {
        told := ToldEvents(state.value, events);
      } else {
        told := ToldEffectsFailed(state.value, events);
      }
      GoTo(y, more);
    }

    /** `reply.send`. */
    method SendReply(env: Envelope, told: Told)
      requires Tracks() && pc.Executing? && pc.env == env && pc.exec.Answer? && told == Shown(pc.exec.reply)
      modifies this`pc, this`hist, this`trace, this`replies
      ensures Tracks() && pc == PcAfter(old(pc).draining, lifecycle.currentState)
      ensures replies == old(replies) + [(env.id, told)]
    {
      SentMore(hist.replies, env.id, pc.exec.reply, Sent(start.h.replies), replies);
      NoteAnswer();
      Reply(env.id, told);
    }

    /** Puts `told` on the reply channel of command `id`. */
    method Reply(id: nat, told: Told)
      requires Configured() && Performs(Cx(), epoch, start, trace, Here())
      modifies this`replies
      ensures replies == old(replies) + [(id, told)] && Configured() && Performs(Cx(), epoch, start, trace, Here())
    {
      ghost var here := Here();
      replies := replies + [(id, told)];
      assert Here() == here;
    }

    ghost method NoteAnswer()
      requires Configured() && Performs(Cx(), epoch, start, trace, Here()) && pc.Executing? && pc.exec.Answer?
      modifies this`pc, this`hist, this`trace
      ensures Configured() && Performs(Cx(), epoch, start, trace, Here())
      ensures pc == PcAfter(old(pc).draining, lifecycle.currentState) && hist.replies == old(hist).replies + [Replied(old(pc).env.id, old(pc).exec.reply)]
    {
      var m := Here();
      var y := AfterAnswer(epoch, m);
      var more := PerformsAnswer(Cx(), epoch, start, trace, m);
      GoTo(y, more);
    }

    ghost method GoTo(y: Local, more: seq<Label>)
      requires Configured() && Performs(Cx(), epoch, start, more, y)
      requires y.a == Act().(pc := y.a.pc) && y.d == Disk()
      modifies this`pc, this`hist, this`trace
      ensures Configured() && Here() == y && Performs(Cx(), epoch, start, trace, Here())
    {
      pc, hist, trace := y.a.pc, y.h, more;
    }

    /** After the commit: apply, maybe snapshot, hand the effects over. */
    method FinishCommit(env: Envelope, events: seq<Event>) returns (told: Told)
      requires Tracks() && pc.Executing? && pc.env == env && pc.exec.Apply? && pc.exec.events == events && state.Some?
      modifies this`state, this`version, this`pc, this`hist, this`trace, lifecycle, tx, persistence.snapshotStore
      ensures Tracks() && pc.Executing? && pc == old(pc).(exec := pc.exec)
      ensures pc.exec.Answer? && told == Shown(pc.exec.reply)
      ensures Done(told, state, version, Disk()) == Concluded(app, ent, old(Disk()), old(state).value, old(version), env, events)
      ensures lifecycle.currentState == AfterTelling(told.ToldPersistenceFailed?, old(lifecycle.currentState))
    {
      var applied := ApplyCommitted(events);
      if !applied {
        return ToldPersistenceFailed;
      }
      SnapshotIfDue(events);
      told := HandOver(env, events);
    }

    /** Persists what the handler returned: a verdict for the caller, unless there are events to apply. */
    method Commit(env: Envelope, events: seq<Event>) returns (told: Option<Told>)
      requires Tracks() && pc.Executing? && pc.env == env && state.Some? && (env.identity.Some? || events != [])
      requires env.identity.Some? ==> env.identity.value.key !in Disk().receipts
      requires pc.exec == if events == [] then Confirm([]) else Exec.Persist(events)
      modifies this`pc, this`hist, this`trace, persistence.eventStore, lifecycle, tx
      ensures Tracks() && pc.Executing? && pc == old(pc).(exec := pc.exec)
      ensures told.None? ==> pc.exec.Apply? && pc.exec.events == events
      ensures told.Some? ==> pc.exec.Answer? && told.value == Shown(pc.exec.reply)
      ensures told ==
        if events != [] && Cx().offset + |old(Disk()).stream| != version then Some(ToldPersistenceFailed)
        else if events == [] then Some(ToldNoEvents(state.value)) else None
      ensures Disk() == if told == Some(ToldPersistenceFailed) then old(Disk()) else Persisted(triple, old(Disk()), version, env.identity, events)
      ensures lifecycle.currentState == AfterTelling(told == Some(ToldPersistenceFailed), old(lifecycle.currentState))
    {
      var ok;
      if env.identity.Some? {
        ok := PersistWithReceipt(env, events);
      } else {
        ok := PersistDirect(env, events);
      }
      told := if !ok then Some(ToldPersistenceFailed) else if events == [] then Some(ToldNoEvents(state.value)) else None;
    }

    /** From the handler to a verdict for the caller. */
    method Dispatch(env: Envelope) returns (told: Told)
      requires Tracks() && pc.Executing? && pc.env == env && pc.exec == Handle && state.Some?
      requires env.identity.Some? ==> env.identity.value.key !in Disk().receipts
      modifies this`state, this`version, this`pc, this`hist, this`trace, lifecycle, tx, persistence.eventStore, persistence.snapshotStore
      ensures Tracks() && pc.Executing? && pc == old(pc).(exec := pc.exec)
      ensures pc.exec.Answer? && told == Shown(pc.exec.reply)
      ensures Done(told, state, version, Disk()) == Handled(app, Cx(), old(Disk()), old(state).value, old(version), env)
      ensures lifecycle.currentState == AfterTelling(told.ToldPersistenceFailed?, old(lifecycle.currentState))
    {
      var handled := Decide(env);
      if handled.None? {
        return ToldHandlerFailed;
      }
      if handled.value == [] && env.identity.None? {
        return ToldNoEvents(state.value);
      }
      var verdict := Commit(env, handled.value);
      if verdict.Some? {
        return verdict.value;
      }
      told := FinishCommit(env, handled.value);
    }

    /**
     * One command, from the gate to its reply: what the caller is told and what is left behind is
     * what `Executed` says, exactly one reply goes out, and the actor fails exactly when the caller is
     * told that persistence failed.
     */
    method ExecuteCommand(env: Envelope) returns (told: Told)
      requires Tracks() && pc.Executing? && pc.env == env && pc.exec == Gate
      modifies this`state, this`version, this`replies, this`pc, this`hist, this`trace, lifecycle, tx, persistence.eventStore, persistence.snapshotStore
      ensures Tracks() && pc == PcAfter(old(pc).draining, lifecycle.currentState)
      ensures replies == old(replies) + [(env.id, told)]
      ensures Done(told, state, version, Disk()) == Executed(app, Cx(), old(Disk()), old(state), old(version), env)
      ensures lifecycle.currentState == AfterTelling(told.ToldPersistenceFailed?, old(lifecycle.currentState))
    {
      var refused := PassGate(env);
      if refused.Some? {
        told := refused.value;
      } else {
        told := Dispatch(env);
      }
      SendReply(env, told);
    }

    ghost function Now(): Batch
      reads this, persistence.eventStore, persistence.snapshotStore
    {
      Batch(replies, state, version, Disk())
    }

    /** Going on from here leads to `goal`; after a failure, this is it. */
    ghost predicate Due(goal: Service)
      reads this, mailbox, lifecycle, persistence.eventStore, persistence.snapshotStore
    {
      && Configured()
      && if lifecycle.currentState == Active then Serve(app, Cx(), Now(), mailbox.queue) == goal
         else lifecycle.currentState == Failed && goal == Service(Now(), mailbox.queue, true)
    }

    /** `recv` on a queue that holds something. */
    method TakeNext(ghost draining: bool) returns (env: Envelope)
      requires Tracks() && pc == (if draining then Draining else Serving) && mailbox.queue != []
      modifies this`pc, this`hist, this`trace, mailbox
      ensures Tracks() && env == old(mailbox.queue)[0] && mailbox.queue == old(mailbox.queue)[1..] && mailbox.closed == old(mailbox.closed)
      ensures pc == Executing(env, draining, Gate)
    {
      ghost var m := Here();
      ghost var y := AfterReceive(epoch, m, draining);
      ghost var more := PerformsReceive(Cx(), epoch, start, trace, m, draining);
      var got := mailbox.RecvAttempt();
      env := got.item;
      GoTo(y, more);
    }

    /** Takes the next command and sees it through. */
    method ServeNext(ghost draining: bool, ghost goal: Service)
      requires Tracks() && pc == (if draining then Draining else Serving) && mailbox.queue != []
      requires lifecycle.currentState == Active && Due(goal)
      modifies this`state, this`version, this`replies, this`pc, this`hist, this`trace, lifecycle, tx, mailbox, persistence.eventStore, persistence.snapshotStore
      ensures Tracks() && pc == PcAfter(draining, lifecycle.currentState) && Due(goal)
      ensures |mailbox.queue| < |old(mailbox.queue)| && mailbox.closed == old(mailbox.closed)
    {
      var env := TakeNext(draining);
      var told := ExecuteCommand(env);
    }

    /**
     * The command loop: until the passivation signal wins, the mailbox has no more, or the actor is
     * no longer active. When the signal comes makes no difference to where things lead.
     */
    method ProcessCommands(ghost goal: Service)
      requires Tracks() && pc == Serving && lifecycle.currentState == Active && Due(goal)
      modifies this`state, this`version, this`replies, this`pc, this`hist, this`trace, lifecycle, tx, mailbox, persistence.eventStore, persistence.snapshotStore
      ensures Tracks() && Due(goal)
      ensures pc == if lifecycle.currentState == Active then Leaving else CloseToFlush(PersistenceFailed)
    {
      var signalled := false;
      while !signalled && mailbox.queue != [] && lifecycle.currentState == Active
        invariant Tracks() && Due(goal) && pc == PcAfter(false, lifecycle.currentState)
        decreases |mailbox.queue|, !signalled
      {
        if * {
          signalled := true;
        } else {
          ServeNext(false, goal);
        }
      }
      if lifecycle.currentState == Active {
        Jump(Leaving);
      }
    }

    /** A silent step that only moves the program counter. */
    ghost method Jump(to: Pc)
      requires Tracks() && (to.Leaving? || to.Unwinding?) && Acts(ent, Cx().Base(), triple, Act(), Tau, Act().(pc := to))
      modifies this`pc, this`hist, this`trace
      ensures Tracks() && pc == to && hist == old(hist)
    {
      var m := Here();
      var y := m.(a := m.a.(pc := to));
      PerformsMore(Cx(), epoch, start, trace, m, Tau, y);
      GoTo(y, trace + [Tau]);
    }

    /** Closes the mailbox, on the way to flush it or to drain it. */
    method CloseMailbox()
      requires Tracks() && (pc.Leaving? || pc.CloseToFlush?)
      modifies this`pc, this`hist, this`trace, mailbox
      ensures Tracks() && pc == (if old(pc).Leaving? then Draining else Flushing(old(pc).reply))
      ensures mailbox.closed && mailbox.queue == old(mailbox.queue) && Now() == old(Now())
    {
      ghost var m := Here();
      ghost var to := if pc.Leaving? then Draining else Flushing(pc.reply);
      ghost var y := m.(a := m.a.(closed := true, pc := to));
      PerformsMore(Cx(), epoch, start, trace, m, Tau, y);
      mailbox.Close();
      GoTo(y, trace + [Tau]);
    }

    /** Refuses one waiting command. */
    method RefuseNext(told: Told, ghost reply: Reply)
      requires Tracks() && pc == Flushing(reply) && told == Shown(reply) && mailbox.queue != []
      modifies this`replies, this`pc, this`hist, this`trace, mailbox
      ensures Tracks() && pc == Flushing(reply) && mailbox.closed == old(mailbox.closed)
      ensures mailbox.queue == old(mailbox.queue)[1..] && replies == old(replies) + [(old(mailbox.queue)[0].id, told)]
    {
      SentMore(hist.replies, mailbox.queue[0].id, reply, Sent(start.h.replies), replies);
      var env := TakeRefused();
      Reply(env.id, told);
    }

    method TakeRefused() returns (env: Envelope)
      requires Configured() && Performs(Cx(), epoch, start, trace, Here()) && pc.Flushing? && mailbox.queue != []
      modifies this`pc, this`hist, this`trace, mailbox
      ensures Configured() && Performs(Cx(), epoch, start, trace, Here()) && pc == old(pc)
      ensures env == old(mailbox.queue)[0] && mailbox.queue == old(mailbox.queue)[1..] && mailbox.closed == old(mailbox.closed)
      ensures hist.replies == old(hist).replies + [Replied(env.id, pc.reply)]
    {
      ghost var y := AfterRefusal(epoch, Here());
      ghost var more := PerformsRefusal(Cx(), epoch, start, trace, Here());
      var got := mailbox.RecvAttempt();
      env := got.item;
      GoTo(y, more);
    }

    /** Refuses what is left in a closed mailbox. */
    method Flush(told: Told, ghost reply: Reply)
      requires Tracks() && pc == Flushing(reply) && told == Shown(reply) && mailbox.closed
      modifies this`replies, this`pc, this`hist, this`trace, mailbox
      ensures Tracks() && pc == Unwinding && mailbox.closed && mailbox.queue == []
      ensures Now() == old(Now()).(sent := old(replies) + Refusals(old(mailbox.queue), told))
    {
      ghost var all := replies + Refusals(mailbox.queue, told);
      while mailbox.queue != []
        invariant Tracks() && pc == Flushing(reply) && mailbox.closed
        invariant replies + Refusals(mailbox.queue, told) == all
        decreases |mailbox.queue|
      {
        RefusesOne(replies, mailbox.queue, told);
        RefuseNext(told, reply);
      }
      Jump(Unwinding);
    }

    method DrainMailboxWithError(told: Told, ghost reply: Reply)
      requires Tracks() && pc == CloseToFlush(reply) && told == Shown(reply)
      modifies this`replies, this`pc, this`hist, this`trace, mailbox
      ensures Tracks() && pc == Unwinding && mailbox.closed && mailbox.queue == []
      ensures Now() == old(Now()).(sent := old(replies) + Refusals(old(mailbox.queue), told))
    {
      CloseMailbox();
      Flush(told, reply);
    }

    /** Where the actor stands between commands tells its lifecycle state. */
    lemma Standing()
      requires Tracks() && LifeOk(start.a)
      ensures pc.Serving? || pc.Leaving? || pc.Draining? ==> lifecycle.currentState == Active
      ensures pc.CloseToFlush? ==> lifecycle.currentState == Failed
      ensures pc.Unwinding? ==> tx.state == lifecycle.currentState
    {
      PerformsKeepsLife(Cx(), epoch, start, trace, Here());
    }

    /** The drained actor turns `Passivating`. */
    method StartPassivating()
      requires Tracks() && pc == Draining && mailbox.queue == [] && mailbox.closed && lifecycle.currentState == Active
      modifies this`pc, this`hist, this`trace, lifecycle, tx
      ensures Tracks() && pc == SavingLast && lifecycle.currentState == Passivating
    {
      ghost var m := Here();
      ghost var y := m.(a := ActorMachine.Transition(m.a.(pc := SavingLast), Passivating));
      PerformsMore(Cx(), epoch, start, trace, m, Tau, y);
      Transition(Passivating);
      GoTo(y, trace + [Tau]);
    }

    method SaveLast()
      requires Tracks() && pc == SavingLast
      modifies this`pc, this`hist, this`trace, persistence.snapshotStore
      ensures Tracks() && pc == Marking
      ensures Disk() == if state.Some? then old(Disk()).(snap := Some(Snap(version, ent.encode(state.value)))) else old(Disk())
    {
      ghost var y, more := PerformsSave(Cx(), epoch, start, trace, Here(), Marking, state.Some?);
      if state.Some? {
        SaveOwnSnapshot(ent.encode(state.value));
      }
      GoTo(y, more);
    }

    method EndPassivating()
      requires Tracks() && pc == Marking && lifecycle.currentState == Passivating
      modifies this`pc, this`hist, this`trace, lifecycle, tx
      ensures Tracks() && pc == Unwinding && lifecycle.currentState == Passivated
    {
      ghost var m := Here();
      ghost var y := m.(a := ActorMachine.Transition(m.a.(pc := Unwinding), Passivated));
      PerformsMore(Cx(), epoch, start, trace, m, Tau, y);
      Transition(Passivated);
      GoTo(y, trace + [Tau]);
    }

    /** Serves what is queued in a closed mailbox, or stops at a failure. */
    method DrainCommands(ghost goal: Service)
      requires Tracks() && pc == Draining && lifecycle.currentState == Active && mailbox.closed && Due(goal)
      modifies this`state, this`version, this`replies, this`pc, this`hist, this`trace, lifecycle, tx, mailbox, persistence.eventStore, persistence.snapshotStore
      ensures Tracks() && pc == PcAfter(true, lifecycle.currentState) && mailbox.closed
      ensures goal == Service(Now(), mailbox.queue, lifecycle.currentState == Failed)
      ensures lifecycle.currentState == Failed || (lifecycle.currentState == Active && mailbox.queue == [])
    {
      while mailbox.queue != [] && lifecycle.currentState != Failed
        invariant Tracks() && Due(goal) && pc == PcAfter(true, lifecycle.currentState) && mailbox.closed
        decreases |mailbox.queue|
      {
        ServeNext(true, goal);
      }
    }

    /** Snapshots a drained actor and marks it passivated. */
    method Leave()
      requires Tracks() && pc == Draining && mailbox.queue == [] && mailbox.closed && registry.Bounded() && lifecycle.currentState == Active
      modifies this`pc, this`hist, this`trace, lifecycle, tx, persistence.snapshotStore, registry`passivated
      ensures Tracks() && pc == Unwinding && lifecycle.currentState == Passivated && Now() == Ended(ent, Service(old(Now()), [], false))
      ensures registry.Bounded() && triple in registry.passivated && registry.passivated[triple] == version
    {
      StartPassivating();
      SaveLast();
      registry.MarkPassivated(triple, version);
      EndPassivating();
      assert replies + Refusals([], ToldPersistenceFailed) == replies;
    }

    /** A failure while draining: the rest is refused, and the entity still marked. */
    method GiveUp()
      requires Tracks() && pc == Flushing(PersistenceFailed) && mailbox.closed && registry.Bounded()
      modifies this`replies, this`pc, this`hist, this`trace, mailbox, registry`passivated
      ensures Tracks() && pc == Unwinding && mailbox.closed && mailbox.queue == []
      ensures Now() == Ended(ent, Service(old(Now()), old(mailbox.queue), true))
      ensures registry.Bounded() && triple in registry.passivated && registry.passivated[triple] == version
    {
      Flush(ToldPersistenceFailed, PersistenceFailed);
      registry.MarkPassivated(triple, version);
    }

    method CloseAndServe(ghost goal: Service)
      requires Tracks() && pc == Leaving && lifecycle.currentState == Active && Due(goal)
      modifies this`state, this`version, this`replies, this`pc, this`hist, this`trace, lifecycle, tx, mailbox, persistence.eventStore, persistence.snapshotStore
      ensures Tracks() && pc == PcAfter(true, lifecycle.currentState) && mailbox.closed
      ensures goal == Service(Now(), mailbox.queue, lifecycle.currentState == Failed)
      ensures lifecycle.currentState == Failed || (lifecycle.currentState == Active && mailbox.queue == [])
    {
      CloseMailbox();
      DrainCommands(goal);
    }

    /** Serves what is queued, then snapshots and leaves; a failure on the way refuses the rest. */
    method Passivate(ghost goal: Service)
      requires Tracks() && pc == Leaving && lifecycle.currentState == Active && Due(goal) && registry.Bounded()
      modifies this`state, this`version, this`replies, this`pc, this`hist, this`trace, lifecycle, tx, mailbox,
        persistence.eventStore, persistence.snapshotStore, registry`passivated
      ensures Tracks() && pc == Unwinding && mailbox.closed && mailbox.queue == [] && Now() == Ended(ent, goal)
      ensures lifecycle.currentState == if goal.failed then Failed else Passivated
      ensures registry.Bounded() && triple in registry.passivated && registry.passivated[triple] == version
    {
      CloseAndServe(goal);
      Depart(goal);
    }

    /** After the last command: snapshot and mark, or refuse whoever is left. */
    method Depart(ghost goal: Service)
      requires Tracks() && pc == PcAfter(true, lifecycle.currentState) && mailbox.closed && registry.Bounded()
      requires goal == Service(Now(), mailbox.queue, lifecycle.currentState == Failed)
      requires lifecycle.currentState == Failed || (lifecycle.currentState == Active && mailbox.queue == [])
      modifies this`replies, this`pc, this`hist, this`trace, lifecycle, tx, mailbox, persistence.snapshotStore, registry`passivated
      ensures Tracks() && pc == Unwinding && mailbox.closed && mailbox.queue == [] && Now() == Ended(ent, goal)
      ensures lifecycle.currentState == if goal.failed then Failed else Passivated
      ensures registry.Bounded() && triple in registry.passivated && registry.passivated[triple] == version
    {
      if lifecycle.currentState == Failed {
        GiveUp();
      } else {
        Leave();
      }
    }

    /** What `run` does once the actor is active. */
    method ServeAndLeave(ghost goal: Service)
      requires Tracks() && pc == Serving && lifecycle.currentState == Active && Due(goal) && registry.Bounded()
      modifies this`state, this`version, this`replies, this`pc, this`hist, this`trace, lifecycle, tx, mailbox,
        persistence.eventStore, persistence.snapshotStore, registry`passivated
      ensures Tracks() && pc == Unwinding && mailbox.closed && mailbox.queue == [] && registry.Bounded()
      ensures Now() == Ended(ent, goal) && lifecycle.currentState == (if goal.failed then Failed else Passivated)
      ensures !goal.failed ==> triple in registry.passivated && registry.passivated[triple] == version
    {
      ProcessCommands(goal);
      if lifecycle.currentState == Failed {
        DrainMailboxWithError(ToldPersistenceFailed, PersistenceFailed);
      } else {
        Passivate(goal);
      }
    }

    /**
     * The whole activation. When recovery fails, everyone waiting is told that the entity is not
     * active. Otherwise the commands in the mailbox are served one after the other from the rebuilt
     * state, up to a failure, the rest is refused, and an actor that did not fail is snapshotted.
     */
    method Run()
      requires Tracks() && pc == Spawned && LifeOk(start.a) && registry.Bounded()
      modifies this`state, this`version, this`replies, this`pc, this`hist, this`trace, lifecycle, tx, mailbox,
        persistence.eventStore, persistence.snapshotStore, registry`passivated
      ensures Tracks() && pc == Unwinding && mailbox.closed && mailbox.queue == [] && registry.Bounded()
      ensures Now() == old(Lifetime(app, Cx(), Now(), mailbox.queue))
      ensures tx.state == if old(Recovers(app, Cx(), Now(), mailbox.queue)).failed then Failed else Passivated
      ensures tx.state == Passivated ==> triple in registry.passivated && registry.passivated[triple] == version
    {
      ghost var goal := Recovers(app, Cx(), Now(), mailbox.queue);
      ghost var end := Lifetime(app, Cx(), Now(), mailbox.queue);
      Recover(goal, end);
      GoOn(goal, end);
      Standing();
    }

    /** After recovery, serving leads to `end`; after a failed one, refusing everyone does. */
    ghost predicate LeadsTo(goal: Service, end: Batch)
      reads this, mailbox, lifecycle, persistence.eventStore, persistence.snapshotStore
    {
      if lifecycle.currentState == Failed then
        goal.failed && pc == CloseToFlush(NotActive) && end == Now().(sent := replies + Refusals(mailbox.queue, ToldNotActive))
      else
        pc == Serving && lifecycle.currentState == Active && Due(goal) && end == Ended(ent, goal)
    }

    /** Recovery, and what it leads to. */
    method Recover(ghost goal: Service, ghost end: Batch)
      requires Tracks() && pc == Spawned && LifeOk(start.a)
      requires goal == Recovers(app, Cx(), Now(), mailbox.queue) && end == Lifetime(app, Cx(), Now(), mailbox.queue)
      modifies this`state, this`version, this`pc, this`hist, this`trace, lifecycle, tx
      ensures Tracks() && LeadsTo(goal, end)
    {
      RecoverState();
      Standing();
    }

    /** Serves and leaves, or turns everyone away. */
    method GoOn(ghost goal: Service, ghost end: Batch)
      requires Tracks() && LeadsTo(goal, end) && registry.Bounded()
      modifies this`state, this`version, this`replies, this`pc, this`hist, this`trace, lifecycle, tx, mailbox,
        persistence.eventStore, persistence.snapshotStore, registry`passivated
      ensures Tracks() && pc == Unwinding && mailbox.closed && mailbox.queue == [] && registry.Bounded()
      ensures Now() == end && lifecycle.currentState == (if goal.failed then Failed else Passivated)
      ensures !goal.failed ==> triple in registry.passivated && registry.passivated[triple] == version
    {
      if lifecycle.currentState == Failed {
        DrainMailboxWithError(ToldNotActive, NotActive);
      } else {
        ServeAndLeave(goal);
      }
    }
  }
}
