/**
 * What holds in every reachable state whatever the application does and whatever becomes of the
 * snapshot: the stream is what committed executions wrote, every operation is committed at most once
 * under the receipt that names it, and replies tell what is stored.
 */
module CellKeys {
  import opened Entities
  import opened EventStore
  import opened ActorMachine
  import opened Cell

  // ------------------------------------------------------------------------------------------
  // The event store and the history
  // ------------------------------------------------------------------------------------------

  function OutcomeOf(entry: Entry): Outcome {
    OutcomeFor(entry.version, entry.events)
  }

  ghost predicate IsReceiptOf(t: Triple, r: Receipt, entry: Entry) {
    entry.identity.Some? && r == ReceiptFor(t, entry.identity.value, OutcomeOf(entry))
  }

  function AllEvents(log: seq<Entry>): seq<Event> {
    if log == [] then [] else AllEvents(log[..|log| - 1]) + log[|log| - 1].events
  }

  /** One execution per operation key, and exactly one receipt for each, saying what it wrote. */
  ghost predicate LogInReceipts(t: Triple, receipts: map<string, Receipt>, log: seq<Entry>) {
    && (forall i, j :: 0 <= i < j < |log| && log[i].identity.Some? && log[j].identity.Some? ==>
          log[i].identity.value.key != log[j].identity.value.key)
    && (forall i :: 0 <= i < |log| && log[i].identity.Some? ==>
          log[i].identity.value.key in receipts && IsReceiptOf(t, receipts[log[i].identity.value.key], log[i]))
    && (forall k :: k in receipts ==>
          exists i :: 0 <= i < |log| && log[i].identity.Some? && log[i].identity.value.key == k)
  }

  /** Each acceptor call belongs to a committed execution, and no execution has two. */
  ghost predicate AcceptsOk(h: History) {
    && (forall i :: 0 <= i < |h.accepts| ==> h.accepts[i] < |h.log|)
    && (forall i, j :: 0 <= i < j < |h.accepts| ==> h.accepts[i] != h.accepts[j])
  }

  predicate ReportsEvents(r: Reply) {
    r.DoneWithEvents? || r.EffectsNotAccepted?
  }

  /** A reply with events reports a committed execution of that very command. */
  ghost predicate Durably(h: History, id: nat, r: Reply) {
    ReportsEvents(r) ==> r.commit < |h.log| && h.log[r.commit].envId == id && h.log[r.commit].events == r.events
  }

  ghost predicate RepliesOk(h: History) {
    forall i :: 0 <= i < |h.replies| ==> Durably(h, h.replies[i].id, h.replies[i].reply)
  }

  ghost predicate KeyStore(cx: Context, d: Durable, h: History) {
    && d.stream == AllEvents(h.log)
    && LogInReceipts(cx.triple, d.receipts, h.log)
    && AcceptsOk(h)
    && RepliesOk(h)
  }

  // ------------------------------------------------------------------------------------------
  // A running actor
  // ------------------------------------------------------------------------------------------

  ghost predicate Unclaimed(d: Durable, env: Envelope) {
    env.identity.Some? ==> env.identity.value.key !in d.receipts
  }

  /** The execution `commit` is this command's and the latest, and its effects have not been handed over. */
  ghost predicate Owns(h: History, env: Envelope, events: seq<Event>, commit: nat) {
    && commit == |h.log| - 1 && h.log[commit].envId == env.id && h.log[commit].identity == env.identity
    && h.log[commit].events == events && commit !in h.accepts
  }

  /** What the stores hold when the command is told `reply`. */
  ghost predicate Settled(t: Triple, d: Durable, h: History, env: Envelope, reply: Reply) {
    match reply
    case Replayed(outcome) =>
      && env.identity.Some? && env.identity.value.key in d.receipts
      && var r := d.receipts[env.identity.value.key];
         r.fingerprint == env.identity.value.fingerprint && r.outcome == outcome
    case OperationConflict(key) =>
      && env.identity.Some? && env.identity.value.key == key && key in d.receipts
      && d.receipts[key].fingerprint != env.identity.value.fingerprint
    case DoneWithoutEvents(_) =>
      env.identity.Some? ==>
        && env.identity.value.key in d.receipts
        && d.receipts[env.identity.value.key] == ReceiptFor(t, env.identity.value, NoEvents)
    case DoneWithEvents(_, events, commit) => Recorded(h, env, events, commit)
    case EffectsNotAccepted(_, events, commit) => Recorded(h, env, events, commit)
    case _ => true
  }

  ghost predicate Recorded(h: History, env: Envelope, events: seq<Event>, commit: nat) {
    && commit < |h.log| && h.log[commit].envId == env.id && h.log[commit].identity == env.identity
    && h.log[commit].events == events
  }

  ghost predicate KeyExec(cx: Context, d: Durable, h: History, a: Activation)
    requires a.pc.Executing?
  {
    var env := a.pc.env;
    match a.pc.exec
    case Gate => true
    case Handle => Unclaimed(d, env)
    case Persist(events) => Unclaimed(d, env) && events != []
    case Confirm(_) => Unclaimed(d, env) && env.identity.Some?
    case Commit(_) => Unclaimed(d, env) && env.identity.Some?
    case Apply(events, commit) => Owns(h, env, events, commit)
    case MaybeSnapshot(events, commit) => Owns(h, env, events, commit)
    case MaybeAccept(events, commit) => Owns(h, env, events, commit)
    case Answer(reply) => Settled(cx.triple, d, h, env, reply)
  }

  ghost predicate KeyAct(cx: Context, d: Durable, h: History, a: Activation) {
    match a.pc
    case Executing(_, _, _) => KeyExec(cx, d, h, a)
    case CloseToFlush(reply) => !ReportsEvents(reply)
    case Flushing(reply) => !ReportsEvents(reply)
    case _ => true
  }

  // ------------------------------------------------------------------------------------------
  // Writing steps
  // ------------------------------------------------------------------------------------------

  /** What a step writes into the log, when it writes. */
  function Wrote(a: Activation, events: seq<Event>): Entry
    requires a.pc.Executing?
  {
    Entry(a.pc.env.identity, a.pc.env.id, a.version, events)
  }

  lemma ReceiptsGrow(t: Triple, receipts: map<string, Receipt>, log: seq<Entry>, entry: Entry, r: Receipt)
    requires LogInReceipts(t, receipts, log) && IsReceiptOf(t, r, entry) && r.key !in receipts
    ensures LogInReceipts(t, receipts[r.key := r], log + [entry])
  {
    var log', receipts' := log + [entry], receipts[r.key := r];
    assert log'[|log|] == entry;
    forall k | k in receipts'
      ensures exists i :: 0 <= i < |log'| && log'[i].identity.Some? && log'[i].identity.value.key == k
    {
      if k == r.key {
        assert log'[|log|].identity.value.key == k;
      } else {
        var i :| 0 <= i < |log| && log[i].identity.Some? && log[i].identity.value.key == k;
        assert log'[i] == log[i];
      }
    }
  }

  lemma ReceiptsUntouched(t: Triple, receipts: map<string, Receipt>, log: seq<Entry>, entry: Entry)
    requires LogInReceipts(t, receipts, log) && entry.identity.None?
    ensures LogInReceipts(t, receipts, log + [entry])
  {
    var log' := log + [entry];
    forall k | k in receipts
      ensures exists i :: 0 <= i < |log'| && log'[i].identity.Some? && log'[i].identity.value.key == k
    {
      var i :| 0 <= i < |log| && log[i].identity.Some? && log[i].identity.value.key == k;
      assert log'[i] == log[i];
    }
  }

  /** A further execution keeps the store in order. */
  lemma WriteKeepsStore(cx: Context, d: Durable, h: History, d': Durable, h': History, entry: Entry)
    requires KeyStore(cx, d, h) && h' == h.(log := h.log + [entry]) && d'.stream == d.stream + entry.events
    requires LogInReceipts(cx.triple, d'.receipts, h'.log)
    ensures KeyStore(cx, d', h')
  {
    assert h'.log[..|h.log|] == h.log;
    forall i | 0 <= i < |h'.replies|
      ensures Durably(h', h'.replies[i].id, h'.replies[i].reply)
    {
      assert Durably(h, h.replies[i].id, h.replies[i].reply);
    }
  }

  lemma WroteIsOwned(h: History, a: Activation, events: seq<Event>, h': History)
    requires a.pc.Executing? && AcceptsOk(h) && h' == h.(log := h.log + [Wrote(a, events)])
    ensures Owns(h', a.pc.env, events, |h.log|)
  {
    assert |h.log| !in h.accepts;
  }

  // ------------------------------------------------------------------------------------------
  // The steps of a command, by where it stands
  // ------------------------------------------------------------------------------------------

  lemma EarlyKeepsKeys(cx: Context, ent: Entity, d: Durable, h: History, e: nat, a: Activation, l: Label, a': Activation, d': Durable, h': History)
    requires a.pc.Executing? && (a.pc.exec.Gate? || a.pc.exec.Handle? || a.pc.exec.Confirm?) && KeyExec(cx, d, h, a)
    requires Executes(ent, cx.triple, a, l, a') && StreamStep(cx.offset, d, l, d') && Records(h, e, a, l, h')
    ensures SameEvents(d, d') && h' == h && a'.pc.Executing? && KeyExec(cx, d', h', a')
  {
  }

  lemma PersistKeepsKeys(cx: Context, ent: Entity, d: Durable, h: History, e: nat, a: Activation, l: Label, a': Activation, d': Durable, h': History)
    requires a.pc.Executing? && a.pc.exec.Persist? && KeyStore(cx, d, h) && KeyExec(cx, d, h, a)
    requires Executes(ent, cx.triple, a, l, a') && StreamStep(cx.offset, d, l, d') && Records(h, e, a, l, h')
    ensures KeyStore(cx, d', h') && a'.pc.Executing? && KeyExec(cx, d', h', a')
  {
    if l.AppendDirect? {
      ReceiptsUntouched(cx.triple, d.receipts, h.log, Wrote(a, l.events));
      WriteKeepsStore(cx, d, h, d', h', Wrote(a, l.events));
      WroteIsOwned(h, a, l.events, h');
    }
  }

  lemma CommitKeepsKeys(cx: Context, ent: Entity, d: Durable, h: History, e: nat, a: Activation, l: Label, a': Activation, d': Durable, h': History)
    requires a.pc.Executing? && a.pc.exec.Commit? && KeyStore(cx, d, h) && KeyExec(cx, d, h, a)
    requires Executes(ent, cx.triple, a, l, a') && StreamStep(cx.offset, d, l, d') && Records(h, e, a, l, h')
    ensures KeyStore(cx, d', h') && a'.pc.Executing? && KeyExec(cx, d', h', a')
  {
    if l.CommitUnit? {
      ReceiptsGrow(cx.triple, d.receipts, h.log, Wrote(a, l.events), l.receipt);
      WriteKeepsStore(cx, d, h, d', h', Wrote(a, l.events));
      WroteIsOwned(h, a, l.events, h');
    }
  }

  lemma AcceptKeepsStore(cx: Context, d: Durable, h: History, env: Envelope, events: seq<Event>, commit: nat)
    requires KeyStore(cx, d, h) && Owns(h, env, events, commit)
    ensures KeyStore(cx, d, h.(accepts := h.accepts + [commit]))
  {
    var h' := h.(accepts := h.accepts + [commit]);
    forall i | 0 <= i < |h'.replies|
      ensures Durably(h', h'.replies[i].id, h'.replies[i].reply)
    {
      assert Durably(h, h.replies[i].id, h.replies[i].reply);
    }
  }

  lemma LateKeepsKeys(cx: Context, ent: Entity, d: Durable, h: History, e: nat, a: Activation, l: Label, a': Activation, d': Durable, h': History)
    requires a.pc.Executing? && (a.pc.exec.Apply? || a.pc.exec.MaybeSnapshot? || a.pc.exec.MaybeAccept?)
    requires KeyStore(cx, d, h) && KeyExec(cx, d, h, a)
    requires Executes(ent, cx.triple, a, l, a') && StreamStep(cx.offset, d, l, d') && Records(h, e, a, l, h')
    ensures KeyStore(cx, d', h') && SameEvents(d, d') && h'.log == h.log && h'.replies == h.replies
    ensures a'.pc.Executing? && KeyExec(cx, d', h', a')
  {
    if l.CallAcceptor? {
      AcceptKeepsStore(cx, d, h, a.pc.env, a.pc.exec.events, a.pc.exec.commit);
    }
  }

  lemma AnswerKeepsStore(cx: Context, d: Durable, h: History, e: nat, id: nat, reply: Reply, h': History)
    requires KeyStore(cx, d, h) && Durably(h, id, reply)
    requires h' == h.(replies := h.replies + [Replied(id, reply)], fates := h.fates[id := Fate(e, Answered)])
    ensures KeyStore(cx, d, h')
  {
    forall i | 0 <= i < |h'.replies|
      ensures Durably(h', h'.replies[i].id, h'.replies[i].reply)
    {
      if i < |h.replies| { assert Durably(h, h.replies[i].id, h.replies[i].reply); }
    }
  }

  lemma AnswerKeepsKeys(cx: Context, ent: Entity, d: Durable, h: History, e: nat, a: Activation, l: Label, a': Activation, d': Durable, h': History)
    requires a.pc.Executing? && a.pc.exec.Answer? && KeyStore(cx, d, h) && KeyExec(cx, d, h, a)
    requires Executes(ent, cx.triple, a, l, a') && StreamStep(cx.offset, d, l, d') && Records(h, e, a, l, h')
    ensures KeyStore(cx, d', h') && SameEvents(d, d') && KeyAct(cx, d', h', a')
  {
    AnswerKeepsStore(cx, d, h, e, l.id, l.reply, h');
  }

  lemma ExecKeepsKeys(cx: Context, ent: Entity, d: Durable, h: History, e: nat, a: Activation, l: Label, a': Activation, d': Durable, h': History)
    requires KeyStore(cx, d, h) && a.pc.Executing? && KeyExec(cx, d, h, a)
    requires Executes(ent, cx.triple, a, l, a') && StreamStep(cx.offset, d, l, d') && Records(h, e, a, l, h')
    ensures KeyStore(cx, d', h') && KeyAct(cx, d', h', a')
  {
    match a.pc.exec
    case Gate => EarlyKeepsKeys(cx, ent, d, h, e, a, l, a', d', h');
    case Handle => EarlyKeepsKeys(cx, ent, d, h, e, a, l, a', d', h');
    case Confirm(_) => EarlyKeepsKeys(cx, ent, d, h, e, a, l, a', d', h');
    case Persist(_) => PersistKeepsKeys(cx, ent, d, h, e, a, l, a', d', h');
    case Commit(_) => CommitKeepsKeys(cx, ent, d, h, e, a, l, a', d', h');
    case Apply(_, _) => LateKeepsKeys(cx, ent, d, h, e, a, l, a', d', h');
    case MaybeSnapshot(_, _) => LateKeepsKeys(cx, ent, d, h, e, a, l, a', d', h');
    case MaybeAccept(_, _) => LateKeepsKeys(cx, ent, d, h, e, a, l, a', d', h');
    case Answer(_) => AnswerKeepsKeys(cx, ent, d, h, e, a, l, a', d', h');
  }

  // ------------------------------------------------------------------------------------------
  // The other steps
  // ------------------------------------------------------------------------------------------

  /** The fates of commands and the snapshot are no concern of the event store. */
  lemma AsideKeepsStore(cx: Context, d: Durable, h: History, d': Durable, h': History)
    requires KeyStore(cx, d, h) && SameEvents(d, d') && h'.log == h.log && h'.accepts == h.accepts && h'.replies == h.replies
    ensures KeyStore(cx, d', h')
  {
    forall i | 0 <= i < |h'.replies|
      ensures Durably(h', h'.replies[i].id, h'.replies[i].reply)
    {
      assert Durably(h, h.replies[i].id, h.replies[i].reply);
    }
  }

  lemma AsideKeepsKeyAct(cx: Context, d: Durable, h: History, d': Durable, h': History, a: Activation)
    requires KeyAct(cx, d, h, a) && SameEvents(d, d') && h'.log == h.log && h'.accepts == h.accepts
    ensures KeyAct(cx, d', h', a)
  {
  }

  lemma RunsKeepsKeys(cx: Context, ent: Entity, d: Durable, h: History, e: nat, a: Activation, l: Label, a': Activation, d': Durable, h': History)
    requires KeyStore(cx, d, h) && KeyAct(cx, d, h, a) && !a.pc.Executing? && !Dead(a)
    requires Runs(ent, cx.Base(), a, l, a') && StreamStep(cx.offset, d, l, d') && Records(h, e, a, l, h')
    ensures KeyStore(cx, d', h') && KeyAct(cx, d', h', a')
  {
    if l.AnswerTo? {
      AnswerKeepsStore(cx, d, h, e, l.id, l.reply, h');
    } else {
      AsideKeepsStore(cx, d, h, d', h');
    }
  }

  lemma GuardsKeepsKeys(cx: Context, d: Durable, h: History, e: nat, a: Activation, l: Label, a': Activation, d': Durable, h': History)
    requires KeyStore(cx, d, h) && Dead(a) && Guards(a, l, a') && StreamStep(cx.offset, d, l, d') && Records(h, e, a, l, h')
    ensures KeyStore(cx, d', h') && KeyAct(cx, d', h', a')
    ensures SameEvents(d, d') && h'.log == h.log && h'.accepts == h.accepts
  {
    if l.AnswerTo? { AnswerKeepsStore(cx, d, h, e, l.id, l.reply, h'); }
  }

  lemma ActKeepsKeys(cx: Context, ent: Entity, d: Durable, h: History, e: nat, a: Activation, l: Label, a': Activation, d': Durable, h': History)
    requires KeyStore(cx, d, h) && KeyAct(cx, d, h, a)
    requires Acts(ent, cx.Base(), cx.triple, a, l, a') && StreamStep(cx.offset, d, l, d') && Records(h, e, a, l, h')
    ensures KeyStore(cx, d', h') && KeyAct(cx, d', h', a')
  {
    if a.pc.Executing? {
      ExecKeepsKeys(cx, ent, d, h, e, a, l, a', d', h');
    } else if Dead(a) {
      GuardsKeepsKeys(cx, d, h, e, a, l, a', d', h');
    } else {
      RunsKeepsKeys(cx, ent, d, h, e, a, l, a', d', h');
    }
  }

  // ------------------------------------------------------------------------------------------
  // Every run
  // ------------------------------------------------------------------------------------------

  ghost predicate Keys(cx: Context, w: World) {
    && KeyStore(cx, w.store, w.hist)
    && (forall e :: e in w.acts ==> KeyAct(cx, w.store, w.hist, w.acts[e]))
  }

  ghost predicate KeyInv(cx: Context, w: World) {
    Routed(w) && Keys(cx, w)
  }

  /** While an activation runs, no other one but a dead one takes a step. */
  lemma OtherIsDead(w: World, e: nat, f: nat)
    requires Routed(w) && e in w.acts && f in w.acts && e != f && !Dead(w.acts[e])
    ensures Detached(w.acts[f])
  {
    assert w.live == Some(e);
  }

  lemma MoveKeepsOtherKeys(cx: Context, ent: Entity, w: World, w': World, e: nat, l: Label, f: nat)
    requires KeyInv(cx, w) && KeyedMoves(cx, ent, w, w', e, l) && f in w.acts && f != e
    ensures f in w'.acts && KeyAct(cx, w'.store, w'.hist, w'.acts[f])
  {
    if Dead(w.acts[e]) {
      GuardsKeepsKeys(cx, w.store, w.hist, e, w.acts[e], l, w'.acts[e], w'.store, w'.hist);
      AsideKeepsKeyAct(cx, w.store, w.hist, w'.store, w'.hist, w.acts[f]);
    } else {
      OtherIsDead(w, e, f);
    }
  }

  lemma MoveKeepsKeys(cx: Context, ent: Entity, w: World, w': World, e: nat, l: Label)
    requires KeyInv(cx, w) && KeyedMoves(cx, ent, w, w', e, l)
    ensures Keys(cx, w')
  {
    ActKeepsKeys(cx, ent, w.store, w.hist, e, w.acts[e], l, w'.acts[e], w'.store, w'.hist);
    forall f | f in w'.acts
      ensures KeyAct(cx, w'.store, w'.hist, w'.acts[f])
    {
      if f != e { MoveKeepsOtherKeys(cx, ent, w, w', e, l, f); }
    }
  }

  lemma AsideKeepsKeys(cx: Context, w: World, w': World)
    requires Keys(cx, w) && SameEvents(w.store, w'.store)
    requires w'.hist.log == w.hist.log && w'.hist.accepts == w.hist.accepts && w'.hist.replies == w.hist.replies
    requires forall e :: e in w'.acts ==> KeyAct(cx, w.store, w.hist, w'.acts[e])
    ensures Keys(cx, w')
  {
    AsideKeepsStore(cx, w.store, w.hist, w'.store, w'.hist);
    forall e | e in w'.acts
      ensures KeyAct(cx, w'.store, w'.hist, w'.acts[e])
    {
      AsideKeepsKeyAct(cx, w.store, w.hist, w'.store, w'.hist, w'.acts[e]);
    }
  }

  lemma EnqueueKeepsKeys(cx: Context, w: World, w': World, e: nat, env: Envelope)
    requires Keys(cx, w) && Enqueues(w, w', e, env)
    ensures Keys(cx, w')
  {
    assert KeyAct(cx, w.store, w.hist, w.acts[e]);
    AsideKeepsKeys(cx, w, w');
  }

  lemma StepKeepsKeys(cx: Context, w: World, w': World)
    requires KeyInv(cx, w) && KeyedStep(cx, w, w')
    ensures KeyInv(cx, w')
  {
    KeyedIsLoose(cx, w, w');
    StepKeepsRouted(cx, w, w');
    if ent, e, l :| KeyedMoves(cx, ent, w, w', e, l) {
      MoveKeepsKeys(cx, ent, w, w', e, l);
    } else if e, capacity :| Activates(w, w', e, capacity) {
      AsideKeepsKeys(cx, w, w');
    } else if SnapsPass(w, w') {
      AsideKeepsKeys(cx, w, w');
    } else if e, env :| Enqueues(w, w', e, env) {
      EnqueueKeepsKeys(cx, w, w', e, env);
    } else {
      var e :| Dies(w, w', e);
      AsideKeepsKeys(cx, w, w');
    }
  }

  lemma InitKeys(cx: Context, w: World)
    requires KeyedInit(w)
    ensures KeyInv(cx, w)
  {
  }

  /** Every step of anyone keeps the invariant, whatever the application does and the snapshots hold. */
  lemma {:induction false} RunKeepsKeys(cx: Context, run: seq<World>)
    requires IsKeyedRun(cx, run)
    ensures KeyInv(cx, run[|run| - 1])
  {
    if |run| == 1 {
      InitKeys(cx, run[0]);
    } else {
      var before := run[..|run| - 1];
      var w, w' := before[|before| - 1], run[|run| - 1];
      assert IsKeyedRun(cx, before) && KeyedStep(cx, w, w');
      RunKeepsKeys(cx, before);
      StepKeepsKeys(cx, w, w');
    }
  }

  lemma KeysHold(cx: Context, w: World)
    requires KeyedReachable(cx, w)
    ensures KeyInv(cx, w)
  {
    var run :| IsKeyedRun(cx, run) && run[|run| - 1] == w;
    RunKeepsKeys(cx, run);
  }
}
