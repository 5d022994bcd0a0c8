/**
 * For a lawful application whose snapshots decode: the state of a running actor, of every snapshot
 * and of every reply is the fold of the stream up to there.
 */
module CellFold {
  import opened Entities
  import opened Recovery
  import opened Lifecycle
  import opened ActorMachine
  import opened Cell
  import opened CellKeys
  import opened CellVersions
  import opened CellRuns

  /** State and version are those of a full replay of the stream. */
  ghost predicate UpToDate(cx: Context, d: Durable, state: Option<State>, version: nat) {
    Folds(cx, d.stream, state) && version == cx.Base() + |d.stream|
  }

  ghost predicate Folds(cx: Context, stream: seq<Event>, state: Option<State>) {
    state.Some? && Replay(cx.ent, cx.genesis, stream) == state
  }

  /** How much of the stream there was after the execution. */
  function End(cx: Context, entry: Entry): int {
    entry.version - cx.Base() + |entry.events|
  }

  /** The state in a reply is that of the stream after the execution it reports. */
  ghost predicate TellsFold(cx: Context, stream: seq<Event>, log: seq<Entry>, r: Reply) {
    ReportsEvents(r) ==>
      && r.commit < |log| && 0 <= End(cx, log[r.commit]) <= |stream|
      && Folds(cx, stream[..End(cx, log[r.commit])], Some(r.state))
  }

  ghost predicate FoldStore(cx: Context, d: Durable, h: History) {
    && SnapValid(cx.ent, cx.genesis, cx.Base(), d.snap, d.stream)
    && (forall i :: 0 <= i < |h.replies| ==> TellsFold(cx, d.stream, h.log, h.replies[i].reply))
  }

  /** The execution is the one the stream ends with. */
  ghost predicate EndsWith(cx: Context, d: Durable, h: History, commit: nat) {
    commit < |h.log| && End(cx, h.log[commit]) == |d.stream|
  }

  ghost predicate FoldExec(cx: Context, d: Durable, h: History, a: Activation)
    requires a.pc.Executing?
  {
    match a.pc.exec
    case Apply(events, commit) =>
      && |events| <= |d.stream| && Folds(cx, d.stream[..|d.stream| - |events|], a.state)
      && EndsWith(cx, d, h, commit)
    case MaybeSnapshot(_, commit) => Folds(cx, d.stream, a.state) && EndsWith(cx, d, h, commit)
    case MaybeAccept(_, commit) => Folds(cx, d.stream, a.state) && EndsWith(cx, d, h, commit)
    case Answer(reply) => (a.lifecycle == Active ==> Folds(cx, d.stream, a.state)) && TellsFold(cx, d.stream, h.log, reply)
    case _ => Folds(cx, d.stream, a.state)
  }

  ghost predicate FoldAct(cx: Context, d: Durable, h: History, a: Activation) {
    match a.pc
    case Executing(_, _, _) => FoldExec(cx, d, h, a)
    case Serving => Folds(cx, d.stream, a.state)
    case Leaving => Folds(cx, d.stream, a.state)
    case Draining => Folds(cx, d.stream, a.state)
    case SavingLast => Folds(cx, d.stream, a.state)
    case _ => true
  }

  // ------------------------------------------------------------------------------------------
  // Steps
  // ------------------------------------------------------------------------------------------

  lemma TellsFoldGrows(cx: Context, stream: seq<Event>, log: seq<Entry>, r: Reply, more: seq<Event>, entry: Entry)
    requires TellsFold(cx, stream, log, r)
    ensures TellsFold(cx, stream + more, log + [entry], r)
  {
    if ReportsEvents(r) {
      var n := End(cx, log[r.commit]);
      assert (stream + more)[..n] == stream[..n];
      assert (log + [entry])[r.commit] == log[r.commit];
    }
  }

  lemma FoldStoreGrows(cx: Context, d: Durable, h: History, d': Durable, h': History, entry: Entry)
    requires FoldStore(cx, d, h) && d'.snap == d.snap && d'.stream == d.stream + entry.events
    requires h'.log == h.log + [entry] && h'.replies == h.replies
    ensures FoldStore(cx, d', h')
  {
    SnapStaysValid(cx.ent, cx.genesis, cx.Base(), d.snap, d.stream, entry.events);
    forall i | 0 <= i < |h'.replies|
      ensures TellsFold(cx, d'.stream, h'.log, h'.replies[i].reply)
    {
      TellsFoldGrows(cx, d.stream, h.log, h.replies[i].reply, entry.events, entry);
    }
  }

  /** Right after the commit: the state is the fold without the events just written. */
  lemma WroteIsFolded(cx: Context, d: Durable, h: History, a: Activation, events: seq<Event>, d': Durable, h': History)
    requires a.pc.Executing? && Numbered(cx, d, a) && Folds(cx, d.stream, a.state)
    requires d'.stream == d.stream + events && h'.log == h.log + [Wrote(a, events)]
    ensures FoldExec(cx, d', h', At(a, Apply(events, |h.log|)))
  {
    assert d'.stream[..|d.stream|] == d.stream;
  }

  lemma SnapshotFolds(cx: Context, d: Durable, h: History, a: Activation)
    requires RoundTrips(cx.ent) && FoldStore(cx, d, h) && Numbered(cx, d, a) && Folds(cx, d.stream, a.state)
    ensures FoldStore(cx, d.(snap := Some(Snap(a.version, cx.ent.encode(a.state.value)))), h)
  {
    assert d.stream[..|d.stream|] == d.stream;
    assert cx.ent.decode(cx.ent.encode(a.state.value)) == Some(a.state.value);
  }

  lemma WriteKeepsFold(cx: Context, d: Durable, h: History, e: nat, a: Activation, l: Label, a': Activation, d': Durable, h': History)
    requires a.pc.Executing? && (a.pc.exec.Persist? || a.pc.exec.Commit?) && LifeOk(a) && KeyExec(cx, d, h, a) && VersionExec(cx, d, a)
    requires FoldStore(cx, d, h) && FoldExec(cx, d, h, a)
    requires Executes(cx.ent, cx.triple, a, l, a') && StoreStep(cx.offset, d, l, d') && Records(h, e, a, l, h')
    ensures FoldStore(cx, d', h') && a'.pc.Executing? && FoldExec(cx, d', h', a')
  {
    if WritesStream(l) {
      FoldStoreGrows(cx, d, h, d', h', Wrote(a, l.events));
      if l.events == [] {
        assert d'.stream == d.stream;
      } else {
        WroteIsFolded(cx, d, h, a, l.events, d', h');
      }
    }
  }

  /** Applying the committed events brings the state up to the stream again. */
  lemma ApplyKeepsFold(cx: Context, d: Durable, h: History, a: Activation, l: Label, a': Activation)
    requires Lawful(cx.ent) && LifeOk(a) && a.pc.Executing? && a.pc.exec.Apply? && KeyExec(cx, d, h, a) && VersionExec(cx, d, a) && FoldExec(cx, d, h, a)
    requires Executes(cx.ent, cx.triple, a, l, a')
    ensures l.Tau? && a'.pc.Executing? && FoldExec(cx, d, h, a')
  {
    var events := a.pc.exec.events;
    var n := |d.stream| - |events|;
    assert d.stream == d.stream[..n] + events;
    ReplaySplit(cx.ent, cx.genesis, d.stream[..n], events);
  }

  /** Before the events are persisted, nothing the fold speaks of changes. */
  lemma EarlyKeepsFold(cx: Context, d: Durable, h: History, e: nat, a: Activation, l: Label, a': Activation, d': Durable, h': History)
    requires a.pc.Executing? && (a.pc.exec.Gate? || a.pc.exec.Handle? || a.pc.exec.Confirm?) && LifeOk(a) && FoldExec(cx, d, h, a)
    requires Executes(cx.ent, cx.triple, a, l, a') && StoreStep(cx.offset, d, l, d') && Records(h, e, a, l, h')
    ensures d' == d && h' == h && a'.pc.Executing? && FoldExec(cx, d, h, a')
  {
  }

  lemma LateKeepsFold(cx: Context, d: Durable, h: History, e: nat, a: Activation, l: Label, a': Activation, d': Durable, h': History)
    requires RoundTrips(cx.ent) && a.pc.Executing? && (a.pc.exec.MaybeSnapshot? || a.pc.exec.MaybeAccept?) && KeyExec(cx, d, h, a) && VersionExec(cx, d, a)
    requires FoldStore(cx, d, h) && FoldExec(cx, d, h, a)
    requires Executes(cx.ent, cx.triple, a, l, a') && StoreStep(cx.offset, d, l, d') && Records(h, e, a, l, h')
    ensures FoldStore(cx, d', h') && a'.pc.Executing? && FoldExec(cx, d', h', a')
  {
    if l.SaveSnapshot? { SnapshotFolds(cx, d, h, a); }
    assert d.stream[..|d.stream|] == d.stream;
  }

  lemma AnswerKeepsFoldStore(cx: Context, d: Durable, h: History, h': History, id: nat, reply: Reply)
    requires FoldStore(cx, d, h) && TellsFold(cx, d.stream, h.log, reply)
    requires h'.log == h.log && h'.replies == h.replies + [Replied(id, reply)]
    ensures FoldStore(cx, d, h')
  {
    forall i | 0 <= i < |h'.replies|
      ensures TellsFold(cx, d.stream, h'.log, h'.replies[i].reply)
    {
      if i < |h.replies| { assert TellsFold(cx, d.stream, h.log, h.replies[i].reply); }
    }
  }

  lemma AnswerKeepsFold(cx: Context, d: Durable, h: History, e: nat, a: Activation, l: Label, a': Activation, d': Durable, h': History)
    requires a.pc.Executing? && a.pc.exec.Answer? && LifeOk(a) && FoldStore(cx, d, h) && FoldExec(cx, d, h, a)
    requires Executes(cx.ent, cx.triple, a, l, a') && StoreStep(cx.offset, d, l, d') && Records(h, e, a, l, h')
    ensures FoldStore(cx, d', h') && FoldAct(cx, d', h', a')
  {
    AnswerKeepsFoldStore(cx, d, h, h', l.id, l.reply);
  }

  lemma ExecKeepsFold(cx: Context, d: Durable, h: History, e: nat, a: Activation, l: Label, a': Activation, d': Durable, h': History)
    requires Sound(cx) && LifeOk(a) && a.pc.Executing? && KeyExec(cx, d, h, a) && VersionExec(cx, d, a) && FoldStore(cx, d, h) && FoldExec(cx, d, h, a)
    requires Executes(cx.ent, cx.triple, a, l, a') && StoreStep(cx.offset, d, l, d') && Records(h, e, a, l, h')
    ensures FoldStore(cx, d', h') && FoldAct(cx, d', h', a')
  {
    match a.pc.exec
    case Gate => EarlyKeepsFold(cx, d, h, e, a, l, a', d', h');
    case Handle => EarlyKeepsFold(cx, d, h, e, a, l, a', d', h');
    case Confirm(_) => EarlyKeepsFold(cx, d, h, e, a, l, a', d', h');
    case Persist(_) => WriteKeepsFold(cx, d, h, e, a, l, a', d', h');
    case Commit(_) => WriteKeepsFold(cx, d, h, e, a, l, a', d', h');
    case Apply(_, _) => ApplyKeepsFold(cx, d, h, a, l, a');
    case MaybeSnapshot(_, _) => LateKeepsFold(cx, d, h, e, a, l, a', d', h');
    case MaybeAccept(_, _) => LateKeepsFold(cx, d, h, e, a, l, a', d', h');
    case Answer(_) => AnswerKeepsFold(cx, d, h, e, a, l, a', d', h');
  }

  /** Recovery: snapshot plus suffix is the fold of the whole stream. */
  lemma RecoveryFolds(cx: Context, d: Durable, h: History, a: Activation)
    requires Lawful(cx.ent) && SnapValid(cx.ent, cx.genesis, cx.Base(), d.snap, d.stream)
    ensures FoldAct(cx, d, h, Recovered(cx.ent, cx.Base(), a, d.snap, d.stream))
  {
    SnapshotPlusSuffix(cx.ent, cx.genesis, cx.Base(), d.snap, d.stream);
  }

  lemma RunsKeepsFold(cx: Context, d: Durable, h: History, e: nat, a: Activation, l: Label, a': Activation, d': Durable, h': History)
    requires Sound(cx) && LifeOk(a) && ActOk(cx, d, h, a) && !a.pc.Executing? && !Dead(a)
    requires FoldStore(cx, d, h) && FoldAct(cx, d, h, a)
    requires Runs(cx.ent, cx.Base(), a, l, a') && StoreStep(cx.offset, d, l, d') && Records(h, e, a, l, h')
    ensures FoldStore(cx, d', h') && FoldAct(cx, d', h', a')
  {
    if l.AnswerTo? {
      AnswerKeepsFoldStore(cx, d, h, h', l.id, l.reply);
    } else if l.SaveSnapshot? {
      SnapshotFolds(cx, d, h, a);
    } else if l.LoadEvents? {
      RecoveryFolds(cx, d, h, a);
    }
  }

  lemma GuardsKeepsFold(cx: Context, d: Durable, h: History, e: nat, a: Activation, l: Label, a': Activation, d': Durable, h': History)
    requires FoldStore(cx, d, h) && Dead(a) && Guards(a, l, a') && StoreStep(cx.offset, d, l, d') && Records(h, e, a, l, h')
    ensures FoldStore(cx, d', h') && FoldAct(cx, d', h', a')
  {
    if l.AnswerTo? { AnswerKeepsFoldStore(cx, d, h, h', l.id, l.reply); }
  }

  lemma ActKeepsFold(cx: Context, d: Durable, h: History, e: nat, a: Activation, l: Label, a': Activation, d': Durable, h': History)
    requires Sound(cx) && LifeOk(a) && ActOk(cx, d, h, a) && FoldStore(cx, d, h) && FoldAct(cx, d, h, a)
    requires Acts(cx.ent, cx.Base(), cx.triple, a, l, a') && StoreStep(cx.offset, d, l, d') && Records(h, e, a, l, h')
    ensures FoldStore(cx, d', h') && FoldAct(cx, d', h', a')
  {
    if a.pc.Executing? {
      ExecKeepsFold(cx, d, h, e, a, l, a', d', h');
    } else if Dead(a) {
      GuardsKeepsFold(cx, d, h, e, a, l, a', d', h');
    } else {
      RunsKeepsFold(cx, d, h, e, a, l, a', d', h');
    }
  }

  // ------------------------------------------------------------------------------------------
  // Every run
  // ------------------------------------------------------------------------------------------

  ghost predicate FoldInv(cx: Context, w: World) {
    && FoldStore(cx, w.store, w.hist)
    && (forall e :: e in w.acts ==> FoldAct(cx, w.store, w.hist, w.acts[e]))
  }

  lemma MoveKeepsOtherFold(cx: Context, w: World, w': World, e: nat, l: Label, f: nat)
    requires Inv(cx, w) && FoldInv(cx, w) && Moves(cx, cx.ent, w, w', e, l) && f in w.acts && f != e
    ensures f in w'.acts && FoldAct(cx, w'.store, w'.hist, w'.acts[f])
  {
    assert FoldAct(cx, w.store, w.hist, w.acts[f]);
    if Dead(w.acts[e]) {
      GuardsKeepsVersions(cx, w.store, w.hist, e, w.acts[e], l, w'.acts[e], w'.store, w'.hist);
    } else {
      OtherIsDead(w, e, f);
    }
  }

  lemma MoveKeepsFold(cx: Context, w: World, w': World, e: nat, l: Label)
    requires Sound(cx) && Inv(cx, w) && FoldInv(cx, w) && Moves(cx, cx.ent, w, w', e, l)
    ensures FoldInv(cx, w')
  {
    InvAt(cx, w, e);
    assert FoldAct(cx, w.store, w.hist, w.acts[e]);
    ActKeepsFold(cx, w.store, w.hist, e, w.acts[e], l, w'.acts[e], w'.store, w'.hist);
    forall f | f in w'.acts
      ensures FoldAct(cx, w'.store, w'.hist, w'.acts[f])
    {
      if f != e { MoveKeepsOtherFold(cx, w, w', e, l, f); }
    }
  }

  lemma AsideKeepsFold(cx: Context, w: World, w': World)
    requires FoldInv(cx, w) && w'.store == w.store && w'.hist.log == w.hist.log && w'.hist.replies == w.hist.replies
    requires forall e :: e in w'.acts ==> FoldAct(cx, w.store, w.hist, w'.acts[e])
    ensures FoldInv(cx, w')
  {
    forall e | e in w'.acts
      ensures FoldAct(cx, w'.store, w'.hist, w'.acts[e])
    {
      assert FoldAct(cx, w.store, w.hist, w'.acts[e]);
    }
  }

  lemma EnqueueKeepsFold(cx: Context, w: World, w': World, e: nat, env: Envelope)
    requires FoldInv(cx, w) && Enqueues(w, w', e, env)
    ensures FoldInv(cx, w')
  {
    assert FoldAct(cx, w.store, w.hist, w.acts[e]);
    AsideKeepsFold(cx, w, w');
  }

  lemma StepKeepsFold(cx: Context, w: World, w': World)
    requires Sound(cx) && Inv(cx, w) && FoldInv(cx, w) && FixedStep(cx, w, w')
    ensures FoldInv(cx, w')
  {
    if e, l :| Moves(cx, cx.ent, w, w', e, l) {
      MoveKeepsFold(cx, w, w', e, l);
    } else if e, capacity :| Activates(w, w', e, capacity) {
      AsideKeepsFold(cx, w, w');
    } else if EpochsPass(w, w') {
      AsideKeepsFold(cx, w, w');
    } else if e, env :| Enqueues(w, w', e, env) {
      EnqueueKeepsFold(cx, w, w', e, env);
    } else {
      var e :| Dies(w, w', e);
      AsideKeepsFold(cx, w, w');
    }
  }

  lemma InitFolds(cx: Context, w: World)
    requires Init(cx, w) && Rooted(cx, w)
    ensures FoldInv(cx, w)
  {
  }

  /** Every run from a good start keeps the fold. */
  lemma {:induction false} RunKeepsFold(cx: Context, run: seq<World>)
    requires Sound(cx) && IsFixedRun(cx, run) && Rooted(cx, run[0])
    ensures Inv(cx, run[|run| - 1]) && FoldInv(cx, run[|run| - 1])
  {
    FixedIsRun(cx, run);
    RunKeepsInv(cx, run);
    if |run| == 1 {
      InitFolds(cx, run[0]);
    } else {
      var before := run[..|run| - 1];
      var w, w' := before[|before| - 1], run[|run| - 1];
      assert IsFixedRun(cx, before) && FixedStep(cx, w, w');
      RunKeepsFold(cx, before);
      StepKeepsFold(cx, w, w');
    }
  }

  lemma FoldHolds(cx: Context, w: World)
    requires Sound(cx) && ReachableFromGenesis(cx, w)
    ensures Inv(cx, w) && FoldInv(cx, w)
  {
    var run :| IsFixedRun(cx, run) && Rooted(cx, run[0]) && run[|run| - 1] == w;
    RunKeepsFold(cx, run);
  }
}
