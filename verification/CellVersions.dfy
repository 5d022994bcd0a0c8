/**
 * Versions, on top of `CellKeys` and still whatever the application does: an actor's version is the
 * stream's, and every execution's events stand in the stream at the versions it claims. That the
 * state is the fold of the stream is the business of `CellFold`.
 */
module CellVersions {
  import opened Entities
  import opened Recovery
  import opened Lifecycle
  import opened ActorMachine
  import opened Cell
  import opened CellKeys

  /** The entry's events stand in the stream from its version on. */
  ghost predicate SliceAt(base: nat, stream: seq<Event>, entry: Entry) {
    && base <= entry.version && entry.version - base + |entry.events| <= |stream|
    && stream[entry.version - base..][..|entry.events|] == entry.events
  }

  /** Each execution's events stand at the versions it claims, one behind the other. */
  ghost predicate Slices(base: nat, stream: seq<Event>, log: seq<Entry>) {
    && (forall i :: 0 <= i < |log| ==> SliceAt(base, stream, log[i]))
    && (forall i, j :: 0 <= i < j < |log| ==> log[i].version + |log[i].events| <= log[j].version)
  }

  ghost predicate VersionStore(cx: Context, d: Durable, h: History) {
    SnapInRange(cx.Base(), d.snap, d.stream) && Slices(cx.Base(), d.stream, h.log)
  }

  ghost predicate StoreOk(cx: Context, d: Durable, h: History) {
    KeyStore(cx, d, h) && VersionStore(cx, d, h)
  }

  /** The actor has a state, at the version of the whole stream. */
  ghost predicate Numbered(cx: Context, d: Durable, a: Activation) {
    a.state.Some? && a.version == cx.Base() + |d.stream|
  }

  /** The same without the last events, which are committed and not applied yet. */
  ghost predicate Behind(cx: Context, d: Durable, a: Activation, events: seq<Event>) {
    && events != [] && |events| <= |d.stream| && d.stream[|d.stream| - |events|..] == events
    && a.state.Some? && a.version == cx.Base() + |d.stream| - |events|
  }

  ghost predicate VersionExec(cx: Context, d: Durable, a: Activation)
    requires a.pc.Executing?
  {
    match a.pc.exec
    case Apply(events, _) => Behind(cx, d, a, events)
    case Answer(_) => a.lifecycle == Active ==> Numbered(cx, d, a)
    case _ => Numbered(cx, d, a)
  }

  ghost predicate VersionAct(cx: Context, d: Durable, a: Activation) {
    match a.pc
    case Executing(_, _, _) => VersionExec(cx, d, a)
    case SnapshotLoaded(snap) => snap == d.snap
    case Serving => Numbered(cx, d, a)
    case Leaving => Numbered(cx, d, a)
    case Draining => Numbered(cx, d, a)
    case SavingLast => Numbered(cx, d, a)
    case _ => true
  }

  ghost predicate ActOk(cx: Context, d: Durable, h: History, a: Activation) {
    KeyAct(cx, d, h, a) && VersionAct(cx, d, a)
  }

  // ------------------------------------------------------------------------------------------
  // The steps of a command
  // ------------------------------------------------------------------------------------------

  lemma SliceStays(base: nat, stream: seq<Event>, more: seq<Event>, entry: Entry)
    requires SliceAt(base, stream, entry)
    ensures SliceAt(base, stream + more, entry)
  {
    var n := entry.version - base;
    assert (stream + more)[n..][..|entry.events|] == stream[n..][..|entry.events|];
  }

  lemma SlicesGrow(base: nat, stream: seq<Event>, log: seq<Entry>, entry: Entry)
    requires Slices(base, stream, log) && entry.version == base + |stream|
    ensures Slices(base, stream + entry.events, log + [entry])
  {
    var log' := log + [entry];
    forall i | 0 <= i < |log'|
      ensures SliceAt(base, stream + entry.events, log'[i])
    {
      if i < |log| {
        SliceStays(base, stream, entry.events, log[i]);
      } else {
        assert (stream + entry.events)[|stream|..] == entry.events;
      }
    }
    forall i, j | 0 <= i < j < |log'|
      ensures log'[i].version + |log'[i].events| <= log'[j].version
    {
      assert SliceAt(base, stream, log[i]);
    }
  }

  /** A write behind the whole stream. */
  lemma WriteKeepsVersions(cx: Context, d: Durable, h: History, a: Activation, events: seq<Event>, d': Durable, h': History)
    requires a.pc.Executing? && VersionStore(cx, d, h) && Numbered(cx, d, a)
    requires d'.stream == d.stream + events && d'.snap == d.snap && h'.log == h.log + [Wrote(a, events)]
    ensures VersionStore(cx, d', h')
    ensures events != [] ==> Behind(cx, d', a, events)
    ensures events == [] ==> Numbered(cx, d', a)
  {
    SlicesGrow(cx.Base(), d.stream, h.log, Wrote(a, events));
    assert d'.stream[|d.stream|..] == events;
  }

  lemma PersistKeepsVersions(cx: Context, ent: Entity, d: Durable, h: History, e: nat, a: Activation, l: Label, a': Activation, d': Durable, h': History)
    requires a.pc.Executing? && (a.pc.exec.Persist? || a.pc.exec.Commit?) && LifeOk(a)
    requires VersionStore(cx, d, h) && KeyExec(cx, d, h, a) && VersionExec(cx, d, a)
    requires Executes(ent, cx.triple, a, l, a') && StoreStep(cx.offset, d, l, d') && Records(h, e, a, l, h')
    ensures VersionStore(cx, d', h') && a'.pc.Executing? && VersionExec(cx, d', a')
  {
    if WritesStream(l) {
      WriteKeepsVersions(cx, d, h, a, l.events, d', h');
    } else {
      assert SameEvents(d, d') && h' == h && d'.snap == d.snap;
    }
  }

  lemma EarlyKeepsVersions(cx: Context, ent: Entity, d: Durable, h: History, e: nat, a: Activation, l: Label, a': Activation, d': Durable, h': History)
    requires a.pc.Executing? && (a.pc.exec.Gate? || a.pc.exec.Handle? || a.pc.exec.Confirm?) && LifeOk(a) && VersionExec(cx, d, a)
    requires Executes(ent, cx.triple, a, l, a') && StoreStep(cx.offset, d, l, d') && Records(h, e, a, l, h')
    ensures d' == d && h' == h && a'.pc.Executing? && VersionExec(cx, d', a')
  {
  }

  lemma LateKeepsVersions(cx: Context, ent: Entity, d: Durable, h: History, e: nat, a: Activation, l: Label, a': Activation, d': Durable, h': History)
    requires a.pc.Executing? && (a.pc.exec.Apply? || a.pc.exec.MaybeSnapshot? || a.pc.exec.MaybeAccept?) && LifeOk(a)
    requires VersionStore(cx, d, h) && VersionExec(cx, d, a)
    requires Executes(ent, cx.triple, a, l, a') && StoreStep(cx.offset, d, l, d') && Records(h, e, a, l, h')
    ensures VersionStore(cx, d', h') && a'.pc.Executing? && VersionExec(cx, d', a')
  {
  }

  lemma AnswerKeepsVersions(cx: Context, ent: Entity, d: Durable, h: History, e: nat, a: Activation, l: Label, a': Activation, d': Durable, h': History)
    requires a.pc.Executing? && a.pc.exec.Answer? && LifeOk(a) && VersionStore(cx, d, h) && VersionExec(cx, d, a)
    requires Executes(ent, cx.triple, a, l, a') && StoreStep(cx.offset, d, l, d') && Records(h, e, a, l, h')
    ensures VersionStore(cx, d', h') && VersionAct(cx, d', a')
  {
    assert d' == d && h'.log == h.log;
  }

  lemma ExecKeepsVersions(cx: Context, ent: Entity, d: Durable, h: History, e: nat, a: Activation, l: Label, a': Activation, d': Durable, h': History)
    requires a.pc.Executing? && LifeOk(a) && VersionStore(cx, d, h) && KeyExec(cx, d, h, a) && VersionExec(cx, d, a)
    requires Executes(ent, cx.triple, a, l, a') && StoreStep(cx.offset, d, l, d') && Records(h, e, a, l, h')
    ensures VersionStore(cx, d', h') && VersionAct(cx, d', a')
  {
    match a.pc.exec
    case Gate => EarlyKeepsVersions(cx, ent, d, h, e, a, l, a', d', h');
    case Handle => EarlyKeepsVersions(cx, ent, d, h, e, a, l, a', d', h');
    case Confirm(_) => EarlyKeepsVersions(cx, ent, d, h, e, a, l, a', d', h');
    case Persist(_) => PersistKeepsVersions(cx, ent, d, h, e, a, l, a', d', h');
    case Commit(_) => PersistKeepsVersions(cx, ent, d, h, e, a, l, a', d', h');
    case Apply(_, _) => LateKeepsVersions(cx, ent, d, h, e, a, l, a', d', h');
    case MaybeSnapshot(_, _) => LateKeepsVersions(cx, ent, d, h, e, a, l, a', d', h');
    case MaybeAccept(_, _) => LateKeepsVersions(cx, ent, d, h, e, a, l, a', d', h');
    case Answer(_) => AnswerKeepsVersions(cx, ent, d, h, e, a, l, a', d', h');
  }

  // ------------------------------------------------------------------------------------------
  // The other steps
  // ------------------------------------------------------------------------------------------

  /** Recovery ends at the version of the whole stream. */
  lemma RecoveryKeepsVersions(cx: Context, ent: Entity, d: Durable, a: Activation)
    requires SnapInRange(cx.Base(), d.snap, d.stream)
    ensures VersionAct(cx, d, Recovered(ent, cx.Base(), a, d.snap, d.stream))
  {
    if Rebuild(ent, cx.Base(), d.snap, d.stream).Some? { RebuiltVersion(ent, cx.Base(), d.snap, d.stream); }
  }

  lemma RunsKeepsVersions(cx: Context, ent: Entity, d: Durable, h: History, e: nat, a: Activation, l: Label, a': Activation, d': Durable, h': History)
    requires !a.pc.Executing? && !Dead(a) && LifeOk(a) && VersionStore(cx, d, h) && VersionAct(cx, d, a)
    requires Runs(ent, cx.Base(), a, l, a') && StoreStep(cx.offset, d, l, d') && Records(h, e, a, l, h')
    ensures VersionStore(cx, d', h') && VersionAct(cx, d', a')
  {
    if l.LoadEvents? { RecoveryKeepsVersions(cx, ent, d, a); }
  }

  lemma GuardsKeepsVersions(cx: Context, d: Durable, h: History, e: nat, a: Activation, l: Label, a': Activation, d': Durable, h': History)
    requires Dead(a) && VersionStore(cx, d, h) && Guards(a, l, a') && StoreStep(cx.offset, d, l, d') && Records(h, e, a, l, h')
    ensures VersionStore(cx, d', h') && VersionAct(cx, d', a') && d' == d && h'.log == h.log && h'.accepts == h.accepts
  {
  }

  lemma ActKeeps(cx: Context, ent: Entity, d: Durable, h: History, e: nat, a: Activation, l: Label, a': Activation, d': Durable, h': History)
    requires LifeOk(a) && StoreOk(cx, d, h) && ActOk(cx, d, h, a)
    requires Acts(ent, cx.Base(), cx.triple, a, l, a') && StoreStep(cx.offset, d, l, d') && Records(h, e, a, l, h')
    ensures StoreOk(cx, d', h') && ActOk(cx, d', h', a')
  {
    ActKeepsKeys(cx, ent, d, h, e, a, l, a', d', h');
    if a.pc.Executing? {
      ExecKeepsVersions(cx, ent, d, h, e, a, l, a', d', h');
    } else if Dead(a) {
      GuardsKeepsVersions(cx, d, h, e, a, l, a', d', h');
    } else {
      RunsKeepsVersions(cx, ent, d, h, e, a, l, a', d', h');
    }
  }
}
