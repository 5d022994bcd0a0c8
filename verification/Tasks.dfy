/**
 * The tasks around an entity as code over the objects, and the steps of the system they are: opening
 * a reference, sending a command, and the future that runs an actor and drops its guard
 * (crates/persistent-entity/src/entity_ref_tokio.rs).
 */
module Tasks {
  import opened Entities
  import opened Lifecycle
  import opened Recovery
  import opened Mailbox
  import opened Registry
  import opened ActorMachine
  import opened Cell
  import opened Commands
  import opened Runtime
  import opened Actor

  // ------------------------------------------------------------------------------------------
  // Opening a reference
  // ------------------------------------------------------------------------------------------

  ghost function Epochs<M>(active: map<Triple, ActiveEntry<M>>): map<Triple, nat> {
    map t | t in active :: active[t].epoch
  }

  /** The registry routes as the system does. */
  ghost predicate Routes<M>(registry: EntityRegistry<M>, s: Runtime.System)
    reads registry
  {
    Epochs(registry.active) == s.active && registry.nextEpoch == s.nextEpoch
  }

  function Activated(s: Runtime.System, t: Triple, capacity: nat): Runtime.System {
    s.(active := s.active[t := s.nextEpoch], nextEpoch := s.nextEpoch + 1,
       owner := s.owner[s.nextEpoch := t], acts := s.acts[s.nextEpoch := Fresh(capacity)])
  }

  /**
   * `TokioEntityRef::new`, up to the spawn: an insertion is an activation of the system, an entry that
   * is there changes nothing, and one that was made for another triple is refused and never routed
   * to. In a registry that keeps its own rules that does not happen.
   */
  method OpenRef(registry: EntityRegistry<BoundedMailbox<Envelope>>, triple: Triple, capacity: nat, ghost cfg: Config, ghost s: Runtime.System)
      returns (r: Result<RouteOutcome<BoundedMailbox<Envelope>>, ()>, ghost s': Runtime.System)
    requires Routes(registry, s) && triple in cfg.triples
    modifies registry`active, registry`nextEpoch
    ensures Routes(registry, s')
    ensures r.Err? <==> triple in old(registry.active) && old(registry.active)[triple].triple != triple
    ensures r.Err? || r.value.Existing? ==> s' == s && registry.active == old(registry.active)
    ensures r.Ok? ==> triple in registry.active && r.value.mailbox == registry.active[triple].mailbox
    ensures r.Ok? && r.value.Existing? ==> triple in old(registry.active) && r.value.owner == triple
    ensures r.Ok? && r.value.Inserted? ==>
      && SysActivates(cfg, s, s', triple, capacity) && r.value.epoch == s.nextEpoch && triple !in old(registry.active)
      && fresh(r.value.mailbox) && r.value.mailbox.Contents() == Shared([], capacity, false, 0, 0)
      && fresh(r.value.tx) && r.value.tx.state == Recovering
      && registry.active == old(registry.active)[triple := ActiveEntry(r.value.mailbox, r.value.tx, r.value.epoch, triple)]
    ensures old(registry.Valid()) ==> registry.Valid() && r.Ok?
  {
    ghost var routed := registry.active;
    var mailbox := new BoundedMailbox<Envelope>(capacity);
    var outcome := registry.LookupOrInsert(triple, () => mailbox);
    s' := s;
    match outcome
    case Existing(_, owner) =>
      var matches := EnsureOwnerMatches(triple, owner);
      if matches.Err? {
        return Err(()), s;
      }
      r := Ok(outcome);
    case Inserted(_, epoch, _) =>
      assert triple !in routed;
      assert triple !in s.active;
      s' := Activated(s, triple, capacity);
      assert Epochs(registry.active) == s'.active;
      r := Ok(outcome);
  }

  // ------------------------------------------------------------------------------------------
  // Sending
  // ------------------------------------------------------------------------------------------

  /** The mailbox object is that of activation `e`. */
  ghost predicate Holds(mailbox: BoundedMailbox<Envelope>, s: Runtime.System, e: nat)
    reads mailbox
  {
    && e in s.acts && e in s.owner && s.owner[e] in s.hist
    && s.acts[e].queue == mailbox.queue && s.acts[e].closed == mailbox.closed && s.acts[e].capacity == mailbox.capacity
  }

  /** One pass of `send`: accepted, it is a send of the system; otherwise nothing happens. */
  method Deliver(mailbox: BoundedMailbox<Envelope>, env: Envelope, ghost s: Runtime.System, ghost e: nat) returns (outcome: SendOutcome, ghost s': Runtime.System)
    requires Holds(mailbox, s, e) && env.id !in s.hist[s.owner[e]].fates
    modifies mailbox
    ensures Holds(mailbox, s', e)
    ensures outcome.Accepted? ==> SysEnqueues(s, s', e, env)
    ensures !outcome.Accepted? ==> s' == s && mailbox.queue == old(mailbox.queue)
    ensures outcome.Rejected? <==> old(mailbox.closed)
  {
    outcome := mailbox.SendAttempt(env);
    s' := s;
    if outcome.Accepted? {
      ghost var t := s.owner[e];
      s' := s.(
        acts := s.acts[e := s.acts[e].(queue := s.acts[e].queue + [env])],
        hist := s.hist[t := s.hist[t].(fates := s.hist[t].fates[env.id := Fate(e, Waiting)])]);
    }
  }

  // ------------------------------------------------------------------------------------------
  // The spawned future
  // ------------------------------------------------------------------------------------------

  /** The guard tears down what the actor runs on: its entry, its mailbox and its published state. */
  ghost predicate Paired(actor: EntityActor, guard: TeardownGuard<Envelope>)
    reads actor
  {
    && guard.triple == actor.triple && guard.registry == actor.registry && guard.epoch == actor.epoch
    && guard.mailbox == actor.mailbox && guard.tx == actor.tx
  }

  /** What is moved into the future when a reference inserted an entry: an actor on that entry, and its guard. */
  method Spawn(registry: EntityRegistry<BoundedMailbox<Envelope>>, triple: Triple, mailbox: BoundedMailbox<Envelope>, epoch: nat, tx: StateCell,
               ent: Entity, persistence: PersistenceFacade, app: Application, ghost genesis: State, ghost hist: History)
      returns (actor: EntityActor, guard: TeardownGuard<Envelope>)
    requires !Blank(triple.tenant) && tx.state == Recovering
    requires triple in registry.active && registry.active[triple] == ActiveEntry(mailbox, tx, epoch, triple)
    ensures fresh(actor) && fresh(actor.lifecycle) && fresh(guard) && Paired(actor, guard)
    ensures actor.Tracks() && actor.Routed() && actor.pc == Spawned && LifeOk(actor.start.a) && actor.replies == []
    ensures actor.triple == triple && actor.registry == registry && actor.epoch == epoch && actor.mailbox == mailbox && actor.tx == tx
    ensures actor.ent == ent && actor.persistence == persistence && actor.app == app && actor.hist == hist
    ensures actor.Act() == Fresh(mailbox.capacity).(queue := mailbox.queue, closed := mailbox.closed)
  {
    actor := new EntityActor(ent, triple, mailbox, tx, persistence, registry, app, genesis, epoch, hist);
    guard := new TeardownGuard(triple, registry, epoch, mailbox, tx);
  }

  /** The end of the guard's `drop`. */
  ghost predicate GuardDone(x: Local, y: Local) {
    && y.a == x.a.(closed := true, queue := [], pc := Finished,
                   published := if x.a.published == Failed || x.a.published == Passivated then x.a.published else Failed)
    && y.d == x.d && y.h.log == x.h.log && y.h.accepts == x.h.accepts
    && Sent(y.h.replies) == Sent(x.h.replies) + Refusals(x.a.queue, ToldNotActive)
  }

  /** Answering what the guard took, one by one. */
  lemma {:induction false} GuardAnswers(cx: Context, e: nat, x: Local, left: seq<Envelope>) returns (y: Local, trace: seq<Label>)
    requires x.a.pc == GuardAnswering(left)
    ensures Performs(cx, e, x, trace, y)
    ensures y.a == x.a.(pc := GuardAnswering([])) && y.d == x.d && y.h.log == x.h.log && y.h.accepts == x.h.accepts
    ensures Sent(y.h.replies) == Sent(x.h.replies) + Refusals(left, ToldNotActive)
    decreases |left|
  {
    if left == [] {
      y, trace := x, [];
      PerformsNone(cx, e, x);
      assert Sent(x.h.replies) + [] == Sent(x.h.replies);
    } else {
      var m := Local(x.a.(pc := GuardAnswering(left[1..])), x.d, x.h.(
        replies := x.h.replies + [Replied(left[0].id, NotActive)], fates := x.h.fates[left[0].id := Fate(e, Place.Answered)]));
      var l := AnswerTo(left[0].id, NotActive);
      assert Does(cx, e, x, l, m);
      var rest;
      y, rest := GuardAnswers(cx, e, m, left[1..]);
      trace := StepThen(cx, e, x, l, m, rest, y);
      SentMore(x.h.replies, left[0].id, NotActive, Sent(x.h.replies), []);
      RefusesOne(Sent(x.h.replies), left, ToldNotActive);
    }
  }

  lemma GuardStarts(cx: Context, e: nat, x: Local, m: Local) returns (trace: seq<Label>)
    requires x.a.pc == Unwinding && m == x.(a := x.a.(closed := true, queue := [], pc := GuardAnswering(x.a.queue)))
    ensures Performs(cx, e, x, trace, m)
  {
    var taking := x.(a := x.a.(closed := true, pc := GuardTaking));
    trace := TwoSteps(cx, e, x, Tau, taking, TakeQueue, m);
  }

  lemma GuardEnds(cx: Context, e: nat, m: Local) returns (y: Local, trace: seq<Label>)
    requires m.a.pc == GuardAnswering([])
    ensures Performs(cx, e, m, trace, y)
    ensures y == m.(a := m.a.(pc := Finished,
      published := if m.a.published == Failed || m.a.published == Passivated then m.a.published else Failed))
  {
    var removing, publishing := m.(a := m.a.(pc := GuardRemoving)), m.(a := m.a.(pc := GuardPublishing));
    y := m.(a := m.a.(pc := Finished,
      published := if m.a.published == Failed || m.a.published == Passivated then m.a.published else Failed));
    var last := TwoSteps(cx, e, removing, Deregister, publishing, Tau, y);
    trace := StepThen(cx, e, m, Tau, removing, last, y);
  }

  lemma GuardTrace(cx: Context, e: nat, x: Local) returns (y: Local, trace: seq<Label>)
    requires x.a.pc == Unwinding
    ensures Performs(cx, e, x, trace, y) && GuardDone(x, y)
  {
    var taken := x.(a := x.a.(closed := true, queue := [], pc := GuardAnswering(x.a.queue)));
    var first := GuardStarts(cx, e, x, taken);
    var answered, middle := GuardAnswers(cx, e, taken, x.a.queue);
    var last;
    y, last := GuardEnds(cx, e, answered);
    PerformsTrans(cx, e, x, first, taken, middle, answered);
    PerformsTrans(cx, e, x, first + middle, answered, last, y);
    trace := first + middle + last;
  }

  /**
   * The guard's `drop`, once `run` has returned or died: the guard steps of the machine, to their end.
   * Everyone still queued is told that the entity is not active.
   */
  method TearDown(actor: EntityActor, guard: TeardownGuard<Envelope>)
    requires actor.Tracks() && actor.pc == Unwinding && Paired(actor, guard)
    modifies actor`pc, actor`hist, actor`trace, actor`replies, guard.mailbox, guard.registry`active, guard.tx
    ensures actor.Tracks() && actor.pc == Finished && actor.mailbox.closed && actor.mailbox.queue == []
    ensures actor.Now() == old(actor.Now()).(sent := old(actor.replies) + Refusals(old(actor.mailbox.queue), ToldNotActive))
    ensures actor.tx.state == if old(actor.tx.state) == Passivated then Passivated else Failed
    ensures actor.registry.active == if old(actor.Routed()) then old(actor.registry.active) - {actor.triple} else old(actor.registry.active)
  {
    ghost var y, trace := GuardRuns(actor);
    ghost var before := Sent(actor.start.h.replies);
    Regroup(before, actor.replies, Refusals(actor.mailbox.queue, ToldNotActive));
    var answered := guard.Drop();
    actor.replies := actor.replies + Refusals(answered, ToldNotActive);
    actor.GoTo(y, trace);
  }

  lemma GuardRuns(actor: EntityActor) returns (y: Local, trace: seq<Label>)
    requires actor.Tracks() && actor.pc == Unwinding
    ensures GuardDone(actor.Here(), y) && Performs(actor.Cx(), actor.epoch, actor.start, trace, y)
  {
    var more;
    y, more := GuardTrace(actor.Cx(), actor.epoch, actor.Here());
    PerformsTrans(actor.Cx(), actor.epoch, actor.start, actor.trace, actor.Here(), more, y);
    trace := actor.trace + more;
  }

  lemma Regroup(a: seq<(nat, Told)>, b: seq<(nat, Told)>, c: seq<(nat, Told)>)
    ensures a + b + c == a + (b + c)
  {
  }

  /** After an orderly end there is nobody to answer and nothing to publish: only the entry goes. */
  method DropIdle(actor: EntityActor, guard: TeardownGuard<Envelope>)
    requires actor.Tracks() && actor.pc == Unwinding && Paired(actor, guard)
    requires actor.mailbox.queue == [] && (actor.tx.state == Passivated || actor.tx.state == Failed)
    modifies actor`pc, actor`hist, actor`trace, actor`replies, guard.mailbox, guard.registry`active, guard.tx
    ensures actor.Tracks() && actor.pc == Finished && actor.mailbox.closed && actor.mailbox.queue == []
    ensures actor.Now() == old(actor.Now()) && actor.tx.state == old(actor.tx.state)
    ensures actor.registry.active == if old(actor.Routed()) then old(actor.registry.active) - {actor.triple} else old(actor.registry.active)
  {
    assert actor.replies + [] == actor.replies;
    TearDown(actor, guard);
  }

  /** The spawned future, when nothing interrupts it: the actor runs, then its guard is dropped. */
  method RunTask(actor: EntityActor, guard: TeardownGuard<Envelope>)
    requires actor.Tracks() && actor.pc == Spawned && LifeOk(actor.start.a) && actor.registry.Bounded()
    requires Paired(actor, guard)
    modifies actor`state, actor`version, actor`replies, actor`pc, actor`hist, actor`trace, actor.lifecycle, actor.tx, actor.mailbox,
      actor.persistence.eventStore, actor.persistence.snapshotStore, actor.registry`passivated, actor.registry`active
    ensures actor.Tracks() && actor.pc == Finished && actor.mailbox.closed && actor.mailbox.queue == []
    ensures actor.Now() == old(Lifetime(actor.app, actor.Cx(), actor.Now(), actor.mailbox.queue))
    ensures actor.registry.active == if old(actor.Routed()) then old(actor.registry.active) - {actor.triple} else old(actor.registry.active)
    ensures actor.tx.state == if old(Recovers(actor.app, actor.Cx(), actor.Now(), actor.mailbox.queue)).failed then Failed else Passivated
  {
    actor.Run();
    assert actor.registry.active == old(actor.registry.active) && actor.Routed() == old(actor.Routed());
    DropIdle(actor, guard);
  }
}
