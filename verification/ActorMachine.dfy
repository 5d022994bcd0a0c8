/**
 * One activation of an entity actor and its teardown guard, as a labelled transition system
 * (crates/persistent-entity/src/actor.rs, crates/persistent-entity/src/entity_ref_tokio.rs).
 *
 * A step is what runs between two awaits; the label names what it asks of the outside: the stores,
 * the handler, the effect acceptor, a waiting caller, the registry.
 */
module ActorMachine {
  import opened Entities
  import opened EventStore
  import opened Recovery
  import opened Lifecycle

  /** A command with its reply channel. The command itself only matters to the handler. */
  datatype Envelope = Envelope(id: nat, identity: Option<Identity>)

  /** What a caller is told. A reply with events names the committed execution it reports. */
  datatype Reply =
    | NotActive
    | PersistenceFailed
    | HandlerFailed
    | OperationConflict(key: string)
    | Replayed(outcome: Outcome)
    | DoneWithoutEvents(state: State)
    | DoneWithEvents(state: State, events: seq<Event>, commit: nat)
    | EffectsNotAccepted(state: State, events: seq<Event>, commit: nat)

  /** Where `execute_command` stands. */
  datatype Exec =
    | Gate
    | Handle
    | Persist(events: seq<Event>)
    | Confirm(events: seq<Event>)
    | Commit(events: seq<Event>)
    | Apply(events: seq<Event>, commit: nat)
    | MaybeSnapshot(events: seq<Event>, commit: nat)
    | MaybeAccept(events: seq<Event>, commit: nat)
    | Answer(reply: Reply)

  /** Where the task stands: in `run`, or, once that has returned or died, in the guard's `drop`. */
  datatype Pc =
    | Spawned
    | SnapshotLoaded(snap: Option<Snap>)
    | Serving
    | Executing(env: Envelope, draining: bool, exec: Exec)
    | Leaving
    | Draining
    | SavingLast
    | Marking
    | CloseToFlush(reply: Reply)
    | Flushing(reply: Reply)
    | Unwinding
    | GuardTaking
    | GuardAnswering(left: seq<Envelope>)
    | GuardRemoving
    | GuardPublishing
    | Finished

  datatype Activation = Activation(
    capacity: nat, queue: seq<Envelope>, closed: bool,
    state: Option<State>, version: nat, lifecycle: EntityState, published: EntityState,
    pc: Pc)

  function Fresh(capacity: nat): Activation {
    Activation(capacity, [], false, None, 0, Recovering, Recovering, Spawned)
  }

  datatype Label =
    | Tau
    | LoadSnapshot(snap: Option<Snap>)
    | LoadEvents(stream: seq<Event>)
    | LoadFailed
    | Receive
    | Find(key: string, found: Option<Receipt>)
    | HandlerFails
    | HandlerReturns(events: seq<Event>)
    | AppendDirect(expected: nat, events: seq<Event>, index: nat)
    | StageEvents(expected: nat, events: seq<Event>)
    | ConfirmReceipt(receipt: Receipt)
    | CommitUnit(expected: nat, events: seq<Event>, receipt: Receipt, index: nat)
    | StoreRefuses
    | SaveSnapshot(version: nat, data: Payload)
    | CallAcceptor(index: nat, accepted: bool)
    | AnswerTo(id: nat, reply: Reply)
    | TakeQueue
    | Deregister

  /** `transition`: the state machine's verdict is ignored and the new state published all the same. */
  function Transition(a: Activation, to: EntityState): Activation {
    a.(lifecycle := if Legal(a.lifecycle, to) then to else a.lifecycle, published := to)
  }

  function At(a: Activation, exec: Exec): Activation
    requires a.pc.Executing?
  {
    a.(pc := a.pc.(exec := exec))
  }

  /** The two ways a persistence failure ends a command: the actor fails, unless nothing was to be appended. */
  function Refused(a: Activation, events: seq<Event>): Activation
    requires a.pc.Executing?
  {
    if events == [] then At(a, Answer(PersistenceFailed)) else Transition(At(a, Answer(PersistenceFailed)), Failed)
  }

  function ReceiptOf(t: Triple, a: Activation, id: Identity, events: seq<Event>): Receipt {
    ReceiptFor(t, id, OutcomeFor(a.version, events))
  }

  /** `recover_state`: `Active` with the rebuilt state, or `Failed`. */
  function Recovered(ent: Entity, base: nat, a: Activation, snap: Option<Snap>, stream: seq<Event>): Activation {
    match Rebuild(ent, base, snap, stream)
    case None => Transition(a.(pc := CloseToFlush(NotActive)), Failed)
    case Some((st, v)) => Transition(a.(pc := Serving, state := Some(st), version := v), Active)
  }

  /** Where the task goes from a command that was answered in lifecycle state `life`. */
  function PcAfter(draining: bool, life: EntityState): Pc {
    if draining then (if life == Failed then Flushing(PersistenceFailed) else Draining)
    else if life == Active then Serving
    else CloseToFlush(PersistenceFailed)
  }

  /** The steps of `execute_command`. */
  ghost predicate Executes(ent: Entity, t: Triple, a: Activation, l: Label, a': Activation)
    requires a.pc.Executing?
  {
    var id := a.pc.env.identity;
    match a.pc.exec
    case Gate =>
      || (a.state.None? && l.Tau? && a' == At(a, Answer(NotActive)))
      || (a.state.Some? && id.None? && l.Tau? && a' == At(a, Handle))
      || (a.state.Some? && id.Some? && l.StoreRefuses? && a' == At(a, Answer(PersistenceFailed)))
      || (a.state.Some? && id.Some? && l.Find? && l.key == id.value.key && a' ==
            (match l.found
             case None => At(a, Handle)
             case Some(r) =>
               if r.fingerprint == id.value.fingerprint then At(a, Answer(Replayed(r.outcome)))
               else At(a, Answer(OperationConflict(id.value.key)))))
    case Handle =>
      || (l.HandlerFails? && a' == At(a, Answer(HandlerFailed)))
      || (l.HandlerReturns? && a.state.Some? && a' ==
            if l.events != [] then At(a, Persist(l.events))
            else if id.Some? then At(a, Confirm([]))
            else At(a, Answer(DoneWithoutEvents(a.state.value))))
    case Persist(events) =>
      || (id.Some? && l.StageEvents? && l.expected == a.version && l.events == events && a' == At(a, Confirm(events)))
      || (id.None? && l.AppendDirect? && l.expected == a.version && l.events == events && a' == At(a, Apply(events, l.index)))
      || (l.StoreRefuses? && a' == Refused(a, events))
    case Confirm(events) =>
      || (id.Some? && l.ConfirmReceipt? && l.receipt == ReceiptOf(t, a, id.value, events) && a' == At(a, Commit(events)))
      || (l.StoreRefuses? && a' == Refused(a, events))
    case Commit(events) =>
      || (id.Some? && l.CommitUnit? && l.expected == a.version && l.events == events
          && l.receipt == ReceiptOf(t, a, id.value, events) && a.state.Some? && a' ==
            if events == [] then At(a, Answer(DoneWithoutEvents(a.state.value))) else At(a, Apply(events, l.index)))
      || (l.StoreRefuses? && a' == Refused(a, events))
    case Apply(events, commit) =>
      l.Tau? && a.state.Some? && a' ==
        (match ent.applyEvents(a.state.value, events)
         case None => Transition(At(a, Answer(PersistenceFailed)), Failed)
         case Some(st) => At(a.(state := Some(st), version := a.version + |events|), MaybeSnapshot(events, commit)))
    case MaybeSnapshot(events, commit) =>
      && (l.Tau? || (l.SaveSnapshot? && a.state.Some? && l.version == a.version && l.data == ent.encode(a.state.value)))
      && a' == At(a, MaybeAccept(events, commit))
    case MaybeAccept(events, commit) =>
      a.state.Some? &&
      ( || ((l.Tau? || (l.CallAcceptor? && l.index == commit && l.accepted))
            && a' == At(a, Answer(DoneWithEvents(a.state.value, events, commit))))
        || ((l.Tau? || (l.CallAcceptor? && l.index == commit && !l.accepted))
            && a' == At(a, Answer(EffectsNotAccepted(a.state.value, events, commit)))) )
    case Answer(reply) =>
      l == AnswerTo(a.pc.env.id, reply) && a' == a.(pc := PcAfter(a.pc.draining, a.lifecycle))
  }

  /** The steps of `run` outside a command. */
  ghost predicate Runs(ent: Entity, base: nat, a: Activation, l: Label, a': Activation) {
    match a.pc
    case Spawned =>
      || (l.LoadSnapshot? && a' == a.(pc := SnapshotLoaded(l.snap)))
      || (l.LoadFailed? && a' == Transition(a.(pc := CloseToFlush(NotActive)), Failed))
    case SnapshotLoaded(snap) =>
      || (l.LoadEvents? && a' == Recovered(ent, base, a, snap, l.stream))
      || (l.LoadFailed? && a' == Transition(a.(pc := CloseToFlush(NotActive)), Failed))
    case Serving =>
      || (l.Receive? && a.queue != [] && a' == a.(queue := a.queue[1..], pc := Executing(a.queue[0], false, Gate)))
      || (l.Tau? && a' == a.(pc := Leaving))
    case Leaving =>
      l.Tau? && a' == a.(closed := true, pc := Draining)
    case Draining =>
      || (l.Receive? && a.queue != [] && a' == a.(queue := a.queue[1..], pc := Executing(a.queue[0], true, Gate)))
      || (l.Tau? && a.queue == [] && a.closed && a' == Transition(a.(pc := SavingLast), Passivating))
    case SavingLast =>
      && (l.Tau? || (l.SaveSnapshot? && a.state.Some? && l.version == a.version && l.data == ent.encode(a.state.value)))
      && a' == a.(pc := Marking)
    case Marking =>
      l.Tau? && a' == Transition(a.(pc := Unwinding), Passivated)
    case CloseToFlush(reply) =>
      l.Tau? && a' == a.(closed := true, pc := Flushing(reply))
    case Flushing(reply) =>
      || (a.queue != [] && l == AnswerTo(a.queue[0].id, reply) && a' == a.(queue := a.queue[1..]))
      || (a.queue == [] && a.closed && l.Tau? && a' == a.(pc := Unwinding))
    case _ => false
  }

  /** The steps of `TeardownGuard::drop`. */
  ghost predicate Guards(a: Activation, l: Label, a': Activation) {
    match a.pc
    case Unwinding => l.Tau? && a' == a.(closed := true, pc := GuardTaking)
    case GuardTaking => l.TakeQueue? && a' == a.(queue := [], pc := GuardAnswering(a.queue))
    case GuardAnswering(left) =>
      || (left != [] && l == AnswerTo(left[0].id, NotActive) && a' == a.(pc := GuardAnswering(left[1..])))
      || (left == [] && l.Tau? && a' == a.(pc := GuardRemoving))
    case GuardRemoving => l.Deregister? && a' == a.(pc := GuardPublishing)
    case GuardPublishing =>
      l.Tau? && a' == a.(
        published := if a.published == Failed || a.published == Passivated then a.published else Failed,
        pc := Finished)
    case _ => false
  }

  /** Past `run`: the guard is at work or done. */
  predicate Dead(a: Activation) {
    a.pc.Unwinding? || a.pc.GuardTaking? || a.pc.GuardAnswering? || a.pc.GuardRemoving? || a.pc.GuardPublishing? || a.pc.Finished?
  }

  /** The guard has given up its routing entry. */
  predicate Detached(a: Activation) {
    a.pc.GuardPublishing? || a.pc.Finished?
  }

  ghost predicate Acts(ent: Entity, base: nat, t: Triple, a: Activation, l: Label, a': Activation) {
    if a.pc.Executing? then Executes(ent, t, a, l, a')
    else if Dead(a) then Guards(a, l, a')
    else Runs(ent, base, a, l, a')
  }

  /** A panic or a cancellation, at any point of `run`: the guard takes over. */
  function Die(a: Activation): Activation {
    a.(pc := Unwinding)
  }

  // ------------------------------------------------------------------------------------------
  // The lifecycle: although the verdict is ignored, every transition is legal
  // ------------------------------------------------------------------------------------------

  /** What those still queued are told by an actor that failed: it never got a state, or could not keep it. */
  function Refusal(a: Activation): Reply {
    if a.state.None? then NotActive else PersistenceFailed
  }

  ghost predicate LifeOk(a: Activation) {
    && (!a.pc.Finished? ==> a.published == a.lifecycle)
    && match a.pc
       case Spawned => a.lifecycle == Recovering && a.state.None?
       case SnapshotLoaded(_) => a.lifecycle == Recovering && a.state.None?
       case Executing(_, draining, exec) =>
         (a.lifecycle == Active || (exec.Answer? && a.lifecycle == Failed)) && (draining ==> a.closed) && a.state.Some?
       case CloseToFlush(reply) => a.lifecycle == Failed && reply == Refusal(a)
       case Flushing(reply) => a.lifecycle == Failed && a.closed && reply == Refusal(a)
       case Draining => a.lifecycle == Active && a.closed && a.state.Some?
       case SavingLast => a.lifecycle == Passivating && a.closed && a.queue == [] && a.state.Some?
       case Marking => a.lifecycle == Passivating && a.closed && a.queue == [] && a.state.Some?
       case Unwinding => true
       case GuardTaking => a.closed
       case GuardAnswering(_) => a.closed && a.queue == []
       case GuardRemoving => a.closed && a.queue == []
       case GuardPublishing => a.closed && a.queue == []
       case Finished =>
         && a.closed && a.queue == []
         && a.published == if a.lifecycle == Passivated then Passivated else Failed
       case _ => a.lifecycle == Active && a.state.Some?
  }

  lemma ExecuteKeepsLife(ent: Entity, t: Triple, a: Activation, l: Label, a': Activation)
    requires a.pc.Executing? && LifeOk(a) && Executes(ent, t, a, l, a')
    ensures LifeOk(a')
  {
  }

  lemma ActKeepsLife(ent: Entity, base: nat, t: Triple, a: Activation, l: Label, a': Activation)
    requires LifeOk(a) && Acts(ent, base, t, a, l, a')
    ensures LifeOk(a')
  {
    if a.pc.Executing? {
      ExecuteKeepsLife(ent, t, a, l, a');
    } else if Dead(a) {
      GuardKeepsLife(a, l, a');
    } else {
      RunKeepsLife(ent, base, a, l, a');
    }
  }

  lemma RunKeepsLife(ent: Entity, base: nat, a: Activation, l: Label, a': Activation)
    requires !a.pc.Executing? && LifeOk(a) && Runs(ent, base, a, l, a')
    ensures LifeOk(a')
  {
  }

  lemma GuardKeepsLife(a: Activation, l: Label, a': Activation)
    requires LifeOk(a) && Guards(a, l, a')
    ensures LifeOk(a')
  {
  }

  /** Every state a running actor publishes is a legal successor of the one before. */
  lemma PublishesLegally(ent: Entity, base: nat, t: Triple, a: Activation, l: Label, a': Activation)
    requires LifeOk(a) && Acts(ent, base, t, a, l, a') && !Dead(a) && a'.published != a.published
    ensures Legal(a.lifecycle, a'.published) && a'.lifecycle == a'.published
  {
    if a.pc.Executing? {
      ExecutePublishesLegally(ent, t, a, l, a');
    } else {
      RunPublishesLegally(ent, base, a, l, a');
    }
  }

  lemma ExecutePublishesLegally(ent: Entity, t: Triple, a: Activation, l: Label, a': Activation)
    requires a.pc.Executing? && LifeOk(a) && Executes(ent, t, a, l, a') && a'.published != a.published
    ensures Legal(a.lifecycle, a'.published) && a'.lifecycle == a'.published
  {
  }

  lemma RunPublishesLegally(ent: Entity, base: nat, a: Activation, l: Label, a': Activation)
    requires !a.pc.Executing? && LifeOk(a) && Runs(ent, base, a, l, a') && a'.published != a.published
    ensures Legal(a.lifecycle, a'.published) && a'.lifecycle == a'.published
  {
  }

  /** The guard publishes at most once, and never over a terminal state. */
  lemma GuardRespectsTerminal(ent: Entity, base: nat, t: Triple, a: Activation, l: Label, a': Activation)
    requires LifeOk(a) && Acts(ent, base, t, a, l, a') && Dead(a)
    ensures a'.lifecycle == a.lifecycle
    ensures a.published == Failed || a.published == Passivated ==> a'.published == a.published
    ensures a'.pc.Finished? ==> a'.published == Failed || a'.published == Passivated
  {
  }

  /** A commit of events that the store refused, or that cannot be applied. */
  ghost predicate LosesItsPlace(ent: Entity, a: Activation, l: Label)
    requires a.pc.Executing?
  {
    match a.pc.exec
    case Persist(events) => l.StoreRefuses? && events != []
    case Confirm(events) => l.StoreRefuses? && events != []
    case Commit(events) => l.StoreRefuses? && events != []
    case Apply(events, _) => a.state.Some? && ent.applyEvents(a.state.value, events).None?
    case _ => false
  }

  /**
   * Exactly when an actor fails: recovery could not load, or could not replay what it loaded; or events
   * were not appended, or were and cannot be applied. A refused lookup or a refused receipt of a
   * command without events does not fail it.
   */
  lemma FailsExactlyWhen(ent: Entity, base: nat, t: Triple, a: Activation, l: Label, a': Activation)
    requires LifeOk(a) && Acts(ent, base, t, a, l, a') && a.lifecycle != Failed
    ensures a'.lifecycle == Failed <==>
      || (a.pc.Spawned? && l.LoadFailed?)
      || (a.pc.SnapshotLoaded? && (l.LoadFailed? || Rebuild(ent, base, a.pc.snap, l.stream).None?))
      || (a.pc.Executing? && LosesItsPlace(ent, a, l))
  {
    if a.pc.Executing? {
      ExecutionFailsExactlyWhen(ent, t, a, l, a');
    }
  }

  lemma ExecutionFailsExactlyWhen(ent: Entity, t: Triple, a: Activation, l: Label, a': Activation)
    requires LifeOk(a) && a.pc.Executing? && Executes(ent, t, a, l, a') && a.lifecycle != Failed
    ensures a'.lifecycle == Failed <==> LosesItsPlace(ent, a, l)
  {
  }

  /**
   * Who is refused without being served, and how: those the guard finds are told that the entity is not
   * active; so are those of an actor that never recovered; an actor that failed later tells them that
   * persistence failed.
   */
  lemma RefusedAs(ent: Entity, base: nat, t: Triple, a: Activation, l: Label, a': Activation)
    requires LifeOk(a) && Acts(ent, base, t, a, l, a') && !a.pc.Executing? && l.AnswerTo?
    ensures l.reply == if Dead(a) || a.state.None? then NotActive else PersistenceFailed
  {
  }

  /** The acceptor is called for the execution just committed, and its verdict is what the caller is told with the events. */
  lemma AcceptanceIsTold(ent: Entity, base: nat, t: Triple, a: Activation, l: Label, a': Activation)
    requires Acts(ent, base, t, a, l, a') && l.CallAcceptor?
    ensures a.pc.Executing? && a.pc.exec.MaybeAccept? && a.state.Some? && l.index == a.pc.exec.commit
    ensures a' == At(a, Answer(
      if l.accepted then DoneWithEvents(a.state.value, a.pc.exec.events, l.index)
      else EffectsNotAccepted(a.state.value, a.pc.exec.events, l.index)))
  {
  }

  /** What a label asks the handler or the event store to do. */
  predicate CallsHandler(l: Label) {
    l.HandlerFails? || l.HandlerReturns?
  }

  predicate WritesStream(l: Label) {
    l.AppendDirect? || l.CommitUnit?
  }

  /** Fail-stop: once `Failed`, no handler is called, nothing is appended, and it stays `Failed`. */
  lemma FailedStops(ent: Entity, base: nat, t: Triple, a: Activation, l: Label, a': Activation)
    requires LifeOk(a) && Acts(ent, base, t, a, l, a') && a.lifecycle == Failed
    ensures !CallsHandler(l) && !WritesStream(l) && !l.StageEvents? && !l.SaveSnapshot? && !l.CallAcceptor?
    ensures a'.lifecycle == Failed
  {
  }

  /** Neither does a dead activation touch the handler or the stores. */
  lemma DeadStops(ent: Entity, base: nat, t: Triple, a: Activation, l: Label, a': Activation)
    requires Acts(ent, base, t, a, l, a') && Dead(a)
    ensures l.Tau? || l.TakeQueue? || l.AnswerTo? || l.Deregister?
    ensures Dead(a')
  {
  }
}
