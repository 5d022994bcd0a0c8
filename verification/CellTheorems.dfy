/** What one entity promises, in every reachable state. */
module CellTheorems {
  import opened Entities
  import opened Lifecycle
  import opened ActorMachine
  import opened Cell
  import opened CellKeys
  import opened CellVersions
  import opened CellRuns
  import opened CellFold

  // ------------------------------------------------------------------------------------------
  // Routing and lifecycle: whatever the application does
  // ------------------------------------------------------------------------------------------

  lemma {:induction false} RunKeepsRouted(cx: Context, run: seq<World>)
    requires IsLooseRun(cx, run)
    ensures Routed(run[|run| - 1]) && Lives(run[|run| - 1])
  {
    if |run| > 1 {
      RunKeepsRouted(cx, run[..|run| - 1]);
      StepKeepsRouted(cx, run[|run| - 2], run[|run| - 1]);
      StepKeepsLives(cx, run[|run| - 2], run[|run| - 1]);
    }
  }

  lemma ReachableRouted(cx: Context, w: World)
    requires LooselyReachable(cx, w)
    ensures Routed(w) && Lives(w)
  {
    var run :| IsLooseRun(cx, run) && run[|run| - 1] == w;
    RunKeepsRouted(cx, run);
  }

  /** At most one activation still holds the entity, and it is the one the routing entry names. */
  lemma OneWriter(cx: Context, w: World, e: nat, f: nat)
    requires LooselyReachable(cx, w) && e in w.acts && f in w.acts && !Detached(w.acts[e]) && !Detached(w.acts[f])
    ensures e == f && w.live == Some(e)
  {
    ReachableRouted(cx, w);
  }

  /** A guard's removal takes away its own entry, and no step of an activation touches another's. */
  lemma RemovalIsOwn(cx: Context, ent: Entity, w: World, w': World, e: nat, l: Label)
    requires LooselyReachable(cx, w) && Acted(cx, ent, w, w', e, l)
    ensures l.Deregister? ==> w.live == Some(e) && w'.live == None
    ensures w.live != Some(e) ==> w'.live == w.live
  {
    ReachableRouted(cx, w);
    MoveDetaches(cx, ent, w, w', e, l);
  }

  /**
   * The published state is the lifecycle state until the guard publishes, every state an actor
   * publishes is a legal successor, and the guard never overwrites a terminal one.
   */
  lemma PublishedIsLifecycle(cx: Context, ent: Entity, w: World, w': World, e: nat, l: Label)
    requires LooselyReachable(cx, w) && Acted(cx, ent, w, w', e, l)
    ensures var a, a' := w.acts[e], w'.acts[e];
      && (!a'.pc.Finished? ==> a'.published == a'.lifecycle)
      && (!Dead(a) && a'.published != a.published ==> Legal(a.lifecycle, a'.published))
      && (Dead(a) && (a.published == Failed || a.published == Passivated) ==> a'.published == a.published)
      && (a'.pc.Finished? ==> a'.published == Failed || a'.published == Passivated)
  {
    ReachableRouted(cx, w);
    var a, a' := w.acts[e], w'.acts[e];
    assert LifeOk(a);
    ActKeepsLife(ent, cx.Base(), cx.triple, a, l, a');
    if Dead(a) {
      GuardRespectsTerminal(ent, cx.Base(), cx.triple, a, l, a');
    } else if a'.published != a.published {
      PublishesLegally(ent, cx.Base(), cx.triple, a, l, a');
    }
  }

  /** Once an activation has failed, no step of it calls the handler, appends, or hands over effects. */
  lemma FailStop(cx: Context, ent: Entity, w: World, w': World, e: nat, l: Label)
    requires LooselyReachable(cx, w) && Moves(cx, ent, w, w', e, l) && w.acts[e].lifecycle == Failed
    ensures w'.acts[e].lifecycle == Failed && !CallsHandler(l)
    ensures w'.store == w.store && w'.hist.log == w.hist.log && w'.hist.accepts == w.hist.accepts
  {
    ReachableRouted(cx, w);
    assert LifeOk(w.acts[e]);
    FailedStops(ent, cx.Base(), cx.triple, w.acts[e], l, w'.acts[e]);
  }

  lemma StepKeepsFailed(cx: Context, w: World, w': World, e: nat)
    requires Lives(w) && Routed(w) && LooseStep(cx, w, w') && e in w.acts && w.acts[e].lifecycle == Failed
    ensures e in w'.acts && w'.acts[e].lifecycle == Failed
  {
    if ent, f, l :| Acted(cx, ent, w, w', f, l) {
      if f == e {
        assert LifeOk(w.acts[e]);
        FailedStops(ent, cx.Base(), cx.triple, w.acts[e], l, w'.acts[e]);
      }
    }
  }

  /** Failure is final, over any number of steps of anyone. */
  lemma {:induction false} FailedForGood(cx: Context, run: seq<World>, n: nat, e: nat)
    requires IsLooseRun(cx, run) && n < |run| && e in run[n].acts && run[n].acts[e].lifecycle == Failed
    ensures e in run[|run| - 1].acts && run[|run| - 1].acts[e].lifecycle == Failed
    decreases |run|
  {
    if n < |run| - 1 {
      var before := run[..|run| - 1];
      var w, w' := before[|before| - 1], run[|run| - 1];
      assert IsLooseRun(cx, before) && LooseStep(cx, w, w') && before[n] == run[n];
      FailedForGood(cx, before, n, e);
      RunKeepsRouted(cx, before);
      StepKeepsFailed(cx, w, w', e);
    }
  }

  /** A step of `execute_command` that asks nothing of the stores but an answer. */
  lemma ExecutionGoesOn(cx: Context, ent: Entity, d: Durable, h: History, e: nat, a: Activation) returns (l: Label, a': Activation, h': History)
    requires a.pc.Executing? && a.state.Some?
    ensures Executes(ent, cx.triple, a, l, a') && StoreStep(cx.offset, d, l, d) && Records(h, e, a, l, h')
  {
    h' := h;
    match a.pc.exec
    case Gate =>
      l := if a.pc.env.identity.Some? then StoreRefuses else Tau;
      a' := At(a, if a.pc.env.identity.Some? then Answer(PersistenceFailed) else Handle);
    case Handle => l, a' := HandlerFails, At(a, Answer(HandlerFailed));
    case Persist(events) => l, a' := StoreRefuses, Refused(a, events);
    case Confirm(events) => l, a' := StoreRefuses, Refused(a, events);
    case Commit(events) => l, a' := StoreRefuses, Refused(a, events);
    case Apply(events, commit) =>
      l := Tau;
      var applied := ent.applyEvents(a.state.value, events);
      a' := if applied.None? then Transition(At(a, Answer(PersistenceFailed)), Failed)
            else At(a.(state := applied, version := a.version + |events|), MaybeSnapshot(events, commit));
    case MaybeSnapshot(events, commit) => l, a' := Tau, At(a, MaybeAccept(events, commit));
    case MaybeAccept(events, commit) => l, a' := Tau, At(a, Answer(DoneWithEvents(a.state.value, events, commit)));
    case Answer(reply) =>
      l, a' := AnswerTo(a.pc.env.id, reply), a.(pc := PcAfter(a.pc.draining, a.lifecycle));
      h' := h.(replies := h.replies + [Replied(a.pc.env.id, reply)], fates := h.fates[a.pc.env.id := Fate(e, Answered)]);
  }

  lemma TaskGoesOn(cx: Context, ent: Entity, d: Durable, h: History, e: nat, a: Activation) returns (l: Label, a': Activation, h': History)
    requires LifeOk(a) && !a.pc.Finished? && !a.pc.Executing?
    ensures Acts(ent, cx.Base(), cx.triple, a, l, a') && StoreStep(cx.offset, d, l, d) && Records(h, e, a, l, h')
  {
    l, h' := Tau, h;
    match a.pc
    case Spawned => l, a' := LoadFailed, Transition(a.(pc := CloseToFlush(NotActive)), Failed);
    case SnapshotLoaded(_) => l, a' := LoadFailed, Transition(a.(pc := CloseToFlush(NotActive)), Failed);
    case Serving => a' := a.(pc := Leaving);
    case Leaving => a' := a.(closed := true, pc := Draining);
    case Draining =>
      if a.queue == [] {
        a' := Transition(a.(pc := SavingLast), Passivating);
      } else {
        l, a' := Receive, a.(queue := a.queue[1..], pc := Executing(a.queue[0], true, Gate));
        h' := h.(fates := h.fates[a.queue[0].id := Fate(e, Held)]);
      }
    case SavingLast => a' := a.(pc := Marking);
    case Marking => a' := Transition(a.(pc := Unwinding), Passivated);
    case CloseToFlush(reply) => a' := a.(closed := true, pc := Flushing(reply));
    case Flushing(reply) =>
      if a.queue == [] {
        a' := a.(pc := Unwinding);
      } else {
        l, a' := AnswerTo(a.queue[0].id, reply), a.(queue := a.queue[1..]);
        h' := h.(replies := h.replies + [Replied(a.queue[0].id, reply)], fates := h.fates[a.queue[0].id := Fate(e, Answered)]);
      }
    case Unwinding => a' := a.(closed := true, pc := GuardTaking);
    case GuardTaking => l, a' := TakeQueue, a.(queue := [], pc := GuardAnswering(a.queue));
    case GuardAnswering(left) =>
      if left == [] {
        a' := a.(pc := GuardRemoving);
      } else {
        l, a' := AnswerTo(left[0].id, NotActive), a.(pc := GuardAnswering(left[1..]));
        h' := h.(replies := h.replies + [Replied(left[0].id, NotActive)], fates := h.fates[left[0].id := Fate(e, Answered)]);
      }
    case GuardRemoving => l, a' := Deregister, a.(pc := GuardPublishing);
    case GuardPublishing =>
      a' := a.(published := if a.published == Failed || a.published == Passivated then a.published else Failed, pc := Finished);
  }

  /**
   * Nothing gets stuck: whatever the stores hold, an activation that is not finished has a next step,
   * also when they refuse everything; and as long as its guard is not at work it may die.
   */
  lemma NeverStuck(cx: Context, ent: Entity, w: World, e: nat)
    requires LooselyReachable(cx, w) && e in w.acts && !w.acts[e].pc.Finished?
    ensures exists w', l :: Moves(cx, ent, w, w', e, l) && SameEvents(w.store, w'.store)
    ensures !Dead(w.acts[e]) ==> exists w' :: Dies(w, w', e)
  {
    ReachableRouted(cx, w);
    var a := w.acts[e];
    assert LifeOk(a);
    var l, a', h';
    if a.pc.Executing? {
      l, a', h' := ExecutionGoesOn(cx, ent, w.store, w.hist, e, a);
    } else {
      l, a', h' := TaskGoesOn(cx, ent, w.store, w.hist, e, a);
    }
    var w' := World(w.store, if l.Deregister? && w.live == Some(e) then None else w.live, w.nextEpoch, w.acts[e := a'], h');
    assert Moves(cx, ent, w, w', e, l);
    if !Dead(a) {
      var dead := w.(
        acts := w.acts[e := Die(a)],
        hist := if a.pc.Executing? then w.hist.(fates := w.hist.fates[a.pc.env.id := Fate(e, Lost)]) else w.hist);
      assert Dies(w, dead, e);
    }
  }

  // ------------------------------------------------------------------------------------------
  // State, version and conflicts
  // ------------------------------------------------------------------------------------------

  /** Committed by this actor and not yet applied by it. */
  predicate Applying(a: Activation) {
    a.pc.Executing? && a.pc.exec.Apply?
  }

  /** An active actor has a state, and its version is the stream's logical length, whatever the application. */
  lemma ActiveIsNumbered(cx: Context, w: World, e: nat)
    requires Reachable(cx, w) && e in w.acts
    requires w.acts[e].lifecycle == Active && !Dead(w.acts[e]) && !Applying(w.acts[e])
    ensures w.acts[e].state.Some? && w.acts[e].version == cx.Base() + |w.store.stream|
  {
    ReachableInv(cx, w);
    InvAt(cx, w, e);
  }

  /** With a lawful application whose snapshots decode, the state of an active actor is the fold of all committed events. */
  lemma ActiveIsCurrent(cx: Context, w: World, e: nat)
    requires Sound(cx) && ReachableFromGenesis(cx, w) && e in w.acts
    requires w.acts[e].lifecycle == Active && !Dead(w.acts[e]) && !Applying(w.acts[e])
    ensures w.acts[e].state.Some? && w.acts[e].state == Replay(cx.ent, cx.genesis, w.store.stream)
    ensures w.acts[e].version == cx.Base() + |w.store.stream|
  {
    FoldHolds(cx, w);
    InvAt(cx, w, e);
    assert FoldAct(cx, w.store, w.hist, w.acts[e]);
  }

  predicate Persisting(a: Activation) {
    a.pc.Executing? && (a.pc.exec.Persist? || a.pc.exec.Confirm? || a.pc.exec.Commit?)
  }

  /**
   * The store's receipt check never refuses the actor, and its version check does so exactly when the
   * store has a negative offset, which recovery does not count; so the commit, which checks nothing
   * again, lands at the version it was staged for.
   */
  lemma NoConflict(cx: Context, w: World, e: nat)
    requires Reachable(cx, w) && e in w.acts && Persisting(w.acts[e])
    ensures cx.Base() + |w.store.stream| == w.acts[e].version
    ensures cx.offset + |w.store.stream| == w.acts[e].version <==> cx.offset >= 0
    ensures w.acts[e].pc.env.identity.Some? ==> w.acts[e].pc.env.identity.value.key !in w.store.receipts
  {
    ReachableInv(cx, w);
    InvAt(cx, w, e);
  }

  // ------------------------------------------------------------------------------------------
  // At most once: whatever the application does and whatever becomes of the snapshot
  // ------------------------------------------------------------------------------------------

  predicate Carries(entry: Entry, key: string) {
    entry.identity.Some? && entry.identity.value.key == key
  }

  /** Each operation key has at most one committed execution and at most one call of the effect acceptor. */
  lemma AtMostOnce(cx: Context, w: World, key: string)
    requires KeyedReachable(cx, w)
    ensures forall i, j :: 0 <= i < j < |w.hist.log| && Carries(w.hist.log[i], key) ==> !Carries(w.hist.log[j], key)
    ensures forall i :: 0 <= i < |w.hist.accepts| ==> w.hist.accepts[i] < |w.hist.log|
    ensures forall i, j :: 0 <= i < j < |w.hist.accepts| && Carries(w.hist.log[w.hist.accepts[i]], key) ==>
      !Carries(w.hist.log[w.hist.accepts[j]], key)
  {
    KeysHold(cx, w);
    assert LogInReceipts(cx.triple, w.store.receipts, w.hist.log) && AcceptsOk(w.hist);
  }

  /** Before the gate, with a key that is already committed. */
  ghost predicate Retries(w: World, e: nat) {
    && e in w.acts && w.acts[e].pc.Executing? && w.acts[e].pc.exec.Gate?
    && w.acts[e].pc.env.identity.Some? && w.acts[e].pc.env.identity.value.key in w.store.receipts
  }

  /** What a retry is told: the recorded outcome, or that its key belongs to another request, unless the lookup fails. */
  function RetryVerdict(a: Activation, l: Label, r: Receipt, id: Identity): Reply {
    if a.state.None? then NotActive
    else if l.StoreRefuses? then PersistenceFailed
    else if r.fingerprint == id.fingerprint then Replayed(r.outcome)
    else OperationConflict(id.key)
  }

  /**
   * A command whose operation key is already committed: the same request is answered from the
   * receipt, another one is refused, and neither reaches the handler or writes anything.
   */
  lemma RetryIsNotExecuted(cx: Context, ent: Entity, w: World, w': World, e: nat, l: Label)
    requires Retries(w, e) && KeyedMoves(cx, ent, w, w', e, l)
    ensures SameEvents(w.store, w'.store) && w'.hist == w.hist && !CallsHandler(l)
    ensures var a, id := w.acts[e], w.acts[e].pc.env.identity.value;
      w'.acts[e].pc == a.pc.(exec := Answer(RetryVerdict(a, l, w.store.receipts[id.key], id)))
  {
    GateAnswers(cx, ent, w.store, w.hist, e, w.acts[e], l, w'.acts[e], w'.store, w'.hist);
  }

  lemma GateAnswers(cx: Context, ent: Entity, d: Durable, h: History, e: nat, a: Activation, l: Label, a': Activation, d': Durable, h': History)
    requires a.pc.Executing? && a.pc.exec.Gate? && a.pc.env.identity.Some? && a.pc.env.identity.value.key in d.receipts
    requires Executes(ent, cx.triple, a, l, a') && StreamStep(cx.offset, d, l, d') && Records(h, e, a, l, h')
    ensures SameEvents(d, d') && h' == h && !CallsHandler(l)
    ensures var id := a.pc.env.identity.value;
      a'.pc == a.pc.(exec := Answer(RetryVerdict(a, l, d.receipts[id.key], id)))
  {
  }

  /** A handler is only called for a command whose operation key has no committed execution. */
  lemma HandlerSeesNewOperations(cx: Context, ent: Entity, w: World, w': World, e: nat, l: Label)
    requires KeyedReachable(cx, w) && KeyedMoves(cx, ent, w, w', e, l) && CallsHandler(l)
    ensures w.acts[e].pc.Executing?
    ensures w.acts[e].pc.env.identity.Some? ==>
      forall i :: 0 <= i < |w.hist.log| ==> !Carries(w.hist.log[i], w.acts[e].pc.env.identity.value.key)
  {
    KeysHold(cx, w);
    HandlingIsNew(cx, ent, w.store, w.hist, w.acts[e], l, w'.acts[e]);
  }

  lemma HandlingIsNew(cx: Context, ent: Entity, d: Durable, h: History, a: Activation, l: Label, a': Activation)
    requires KeyStore(cx, d, h) && KeyAct(cx, d, h, a) && Acts(ent, cx.Base(), cx.triple, a, l, a') && CallsHandler(l)
    ensures a.pc.Executing?
    ensures a.pc.env.identity.Some? ==> forall i :: 0 <= i < |h.log| ==> !Carries(h.log[i], a.pc.env.identity.value.key)
  {
    assert a.pc.Executing? && a.pc.exec == Handle;
    assert LogInReceipts(cx.triple, d.receipts, h.log);
  }

  // ------------------------------------------------------------------------------------------
  // The stream and the receipts
  // ------------------------------------------------------------------------------------------

  /** Nothing is in the stream but what committed executions wrote, each once, in the order of their commits. */
  lemma StreamIsTheLog(cx: Context, w: World)
    requires KeyedReachable(cx, w)
    ensures w.store.stream == AllEvents(w.hist.log)
  {
    KeysHold(cx, w);
  }

  /** Receipts are those of committed executions: each has one, and each of them is filed. */
  lemma ReceiptsAreTheLog(cx: Context, w: World, k: string)
    requires KeyedReachable(cx, w)
    ensures k in w.store.receipts <==> exists i :: 0 <= i < |w.hist.log| && Carries(w.hist.log[i], k)
    ensures forall i :: 0 <= i < |w.hist.log| && Carries(w.hist.log[i], k) ==>
      k in w.store.receipts && IsReceiptOf(cx.triple, w.store.receipts[k], w.hist.log[i])
  {
    KeysHold(cx, w);
    assert LogInReceipts(cx.triple, w.store.receipts, w.hist.log);
    if k in w.store.receipts {
      var i :| 0 <= i < |w.hist.log| && w.hist.log[i].identity.Some? && w.hist.log[i].identity.value.key == k;
      assert Carries(w.hist.log[i], k);
    }
  }

  ghost predicate NamesSlice(base: nat, stream: seq<Event>, o: Outcome, events: seq<Event>) {
    match o
    case NoEvents => events == []
    case Events(from, to) =>
      && base < from <= to <= base + |stream|
      && stream[from - 1 - base..to - base] == events
  }

  predicate Apart(o: Outcome, p: Outcome) {
    o.Events? && p.Events? ==> o.versionTo < p.versionFrom || p.versionTo < o.versionFrom
  }

  lemma ReceiptEntry(cx: Context, w: World, k: string) returns (i: nat)
    requires Inv(cx, w) && k in w.store.receipts
    ensures i < |w.hist.log| && Carries(w.hist.log[i], k) && IsReceiptOf(cx.triple, w.store.receipts[k], w.hist.log[i])
    ensures SliceAt(cx.Base(), w.store.stream, w.hist.log[i])
  {
    assert LogInReceipts(cx.triple, w.store.receipts, w.hist.log);
    i :| 0 <= i < |w.hist.log| && w.hist.log[i].identity.Some? && w.hist.log[i].identity.value.key == k;
  }

  /** A receipt names exactly the slice of the stream that its operation appended. */
  lemma ReceiptNamesSlice(cx: Context, w: World, k: string) returns (i: nat)
    requires Reachable(cx, w) && k in w.store.receipts
    ensures i < |w.hist.log| && w.hist.log[i].identity == Some(Identity(k, w.store.receipts[k].fingerprint))
    ensures NamesSlice(cx.Base(), w.store.stream, w.store.receipts[k].outcome, w.hist.log[i].events)
  {
    ReachableInv(cx, w);
    i := ReceiptEntry(cx, w, k);
    SliceIsNamed(cx.Base(), w.store.stream, w.hist.log[i]);
  }

  lemma SliceIsNamed(base: nat, stream: seq<Event>, entry: Entry)
    requires SliceAt(base, stream, entry)
    ensures NamesSlice(base, stream, OutcomeOf(entry), entry.events)
  {
    var n := entry.version - base;
    assert stream[n..][..|entry.events|] == stream[n..n + |entry.events|];
  }

  /** The slices of different operations do not overlap. */
  lemma ReceiptsApart(cx: Context, w: World, k: string, q: string)
    requires Reachable(cx, w) && k in w.store.receipts && q in w.store.receipts && k != q
    ensures Apart(w.store.receipts[k].outcome, w.store.receipts[q].outcome)
  {
    ReachableInv(cx, w);
    var i := ReceiptEntry(cx, w, k);
    var j := ReceiptEntry(cx, w, q);
    assert Slices(cx.Base(), w.store.stream, w.hist.log);
  }

  lemma CommitIsFresh(cx: Context, ent: Entity, w: World, w': World, e: nat, l: Label)
    requires KeyInv(cx, w) && KeyedMoves(cx, ent, w, w', e, l) && l.CommitUnit?
    ensures l.receipt.key !in w.store.receipts
  {
    assert KeyAct(cx, w.store, w.hist, w.acts[e]);
  }

  lemma StepKeepsDurable(cx: Context, w: World, w': World)
    requires KeyInv(cx, w) && KeyedStep(cx, w, w')
    ensures w.store.stream <= w'.store.stream
    ensures forall k :: k in w.store.receipts ==> k in w'.store.receipts && w'.store.receipts[k] == w.store.receipts[k]
  {
    if ent, e, l :| KeyedMoves(cx, ent, w, w', e, l) {
      if l.CommitUnit? { CommitIsFresh(cx, ent, w, w', e, l); }
      StoreOnlyGrows(cx.offset, w.store, l, w'.store);
    }
  }

  lemma StoreOnlyGrows(offset: int, d: Durable, l: Label, d': Durable)
    requires StreamStep(offset, d, l, d') && (l.CommitUnit? ==> l.receipt.key !in d.receipts)
    ensures d.stream <= d'.stream
    ensures forall k :: k in d.receipts ==> k in d'.receipts && d'.receipts[k] == d.receipts[k]
  {
  }

  /** Committed events and receipts are for good. */
  lemma {:induction false} DurableForGood(cx: Context, run: seq<World>, n: nat)
    requires IsKeyedRun(cx, run) && n < |run|
    ensures run[n].store.stream <= run[|run| - 1].store.stream
    ensures forall k :: k in run[n].store.receipts ==>
      k in run[|run| - 1].store.receipts && run[|run| - 1].store.receipts[k] == run[n].store.receipts[k]
    decreases |run|
  {
    if n < |run| - 1 {
      var before := run[..|run| - 1];
      var w, w' := before[|before| - 1], run[|run| - 1];
      assert IsKeyedRun(cx, before) && KeyedStep(cx, w, w') && before[n] == run[n];
      DurableForGood(cx, before, n);
      RunKeepsKeys(cx, before);
      StepKeepsDurable(cx, w, w');
    }
  }

  // ------------------------------------------------------------------------------------------
  // What callers were told
  // ------------------------------------------------------------------------------------------

  /** Whoever was told of events finds them in the stream, committed by that very command. */
  lemma DurableBeforeAcknowledged(cx: Context, w: World, i: nat)
    requires Reachable(cx, w) && i < |w.hist.replies| && ReportsEvents(w.hist.replies[i].reply)
    ensures var told := w.hist.replies[i];
      && told.reply.commit < |w.hist.log|
      && w.hist.log[told.reply.commit].envId == told.id
      && w.hist.log[told.reply.commit].events == told.reply.events
      && SliceAt(cx.Base(), w.store.stream, w.hist.log[told.reply.commit])
  {
    ReachableInv(cx, w);
    assert Durably(w.hist, w.hist.replies[i].id, w.hist.replies[i].reply);
    assert SliceAt(cx.Base(), w.store.stream, w.hist.log[w.hist.replies[i].reply.commit]);
  }

  /** The state in every reply with events is the fold of the stream as that execution left it. */
  lemma ToldStateIsFold(cx: Context, w: World, i: nat)
    requires Sound(cx) && ReachableFromGenesis(cx, w) && i < |w.hist.replies| && ReportsEvents(w.hist.replies[i].reply)
    ensures var reply := w.hist.replies[i].reply;
      && reply.commit < |w.hist.log| && 0 <= End(cx, w.hist.log[reply.commit]) <= |w.store.stream|
      && Replay(cx.ent, cx.genesis, w.store.stream[..End(cx, w.hist.log[reply.commit])]) == Some(reply.state)
  {
    FoldHolds(cx, w);
    assert TellsFold(cx, w.store.stream, w.hist.log, w.hist.replies[i].reply);
  }

  /**
   * What the store holds when a command is answered: a replay or a refusal is what the filed receipt
   * says, a success without events has its receipt filed, a success with events its execution and,
   * with an identity, the receipt that names it.
   */
  lemma AnswersAreSettled(cx: Context, ent: Entity, w: World, w': World, e: nat, l: Label)
    requires KeyedReachable(cx, w) && KeyedMoves(cx, ent, w, w', e, l) && w.acts[e].pc.Executing? && l.AnswerTo?
    ensures l.id == w.acts[e].pc.env.id && Settled(cx.triple, w'.store, w'.hist, w.acts[e].pc.env, l.reply)
    ensures ReportsEvents(l.reply) && w.acts[e].pc.env.identity.Some? ==>
      var key := w.acts[e].pc.env.identity.value.key;
      key in w'.store.receipts && IsReceiptOf(cx.triple, w'.store.receipts[key], w'.hist.log[l.reply.commit])
  {
    KeysHold(cx, w);
    SettledWhenAnswered(cx, ent, w.store, w.hist, e, w.acts[e], l, w'.acts[e], w'.store, w'.hist);
  }

  lemma SettledWhenAnswered(cx: Context, ent: Entity, d: Durable, h: History, e: nat, a: Activation, l: Label, a': Activation, d': Durable, h': History)
    requires a.pc.Executing? && KeyStore(cx, d, h) && KeyAct(cx, d, h, a) && l.AnswerTo?
    requires Acts(ent, cx.Base(), cx.triple, a, l, a') && StreamStep(cx.offset, d, l, d') && Records(h, e, a, l, h')
    ensures l.id == a.pc.env.id && Settled(cx.triple, d', h', a.pc.env, l.reply)
    ensures ReportsEvents(l.reply) && a.pc.env.identity.Some? ==>
      && a.pc.env.identity.value.key in d'.receipts
      && IsReceiptOf(cx.triple, d'.receipts[a.pc.env.identity.value.key], h'.log[l.reply.commit])
  {
    assert a.pc.exec == Answer(l.reply) && SameEvents(d, d') && h'.log == h.log;
    RecordedHasReceipt(cx, d, h, a.pc.env, l.reply);
  }

  lemma RecordedHasReceipt(cx: Context, d: Durable, h: History, env: Envelope, reply: Reply)
    requires LogInReceipts(cx.triple, d.receipts, h.log) && Settled(cx.triple, d, h, env, reply)
    ensures ReportsEvents(reply) && env.identity.Some? ==>
      && env.identity.value.key in d.receipts
      && IsReceiptOf(cx.triple, d.receipts[env.identity.value.key], h.log[reply.commit])
  {
  }
}
