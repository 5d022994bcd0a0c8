/**
 * What one command comes to, as a function of the entity's state and stores
 * (`execute_command` in crates/persistent-entity/src/actor.rs), and what that means for the fold of
 * the stream and for retries.
 */
module Commands {
  import opened Entities
  import opened EventStore
  import opened Recovery
  import opened ActorMachine
  import opened Cell
  import opened CellFold

  /** What the effect side of a committed command came to. */
  datatype Effects = NoneDescribed | NoAcceptor | Taken | NotTaken

  /** The application: the command handler, the snapshot strategy, and what became of a command's effects. */
  datatype Application = Application(
    handleCommand: (Envelope, State) -> Option<seq<Event>>,
    shouldTakeSnapshot: (nat, nat) -> bool,
    acceptEffects: (Envelope, State, seq<Event>) -> Effects)

  /** The reply as the caller sees it. */
  datatype Told =
    | ToldNotActive
    | ToldPersistenceFailed
    | ToldHandlerFailed
    | ToldConflict(key: string)
    | ToldReplayed(outcome: Outcome)
    | ToldNoEvents(state: State)
    | ToldEvents(state: State, events: seq<Event>)
    | ToldEffectsFailed(state: State, events: seq<Event>)

  function Shown(r: Reply): Told {
    match r
    case NotActive => ToldNotActive
    case PersistenceFailed => ToldPersistenceFailed
    case HandlerFailed => ToldHandlerFailed
    case OperationConflict(key) => ToldConflict(key)
    case Replayed(outcome) => ToldReplayed(outcome)
    case DoneWithoutEvents(state) => ToldNoEvents(state)
    case DoneWithEvents(state, events, _) => ToldEvents(state, events)
    case EffectsNotAccepted(state, events, _) => ToldEffectsFailed(state, events)
  }

  /** What the caller is told, and the state, version and stores left behind. */
  datatype Done = Done(told: Told, state: Option<State>, version: nat, d: Durable)

  /** What the receipt gate decides: a known operation is answered from its receipt, a misused key refused. */
  function GateVerdict(state: Option<State>, identity: Option<Identity>, receipts: map<string, Receipt>): Exec {
    if state.None? then Answer(NotActive)
    else if identity.None? || identity.value.key !in receipts then Handle
    else
      var r := receipts[identity.value.key];
      if r.fingerprint == identity.value.fingerprint then Answer(Replayed(r.outcome))
      else Answer(OperationConflict(identity.value.key))
  }

  function Executed(app: Application, cx: Context, d: Durable, state: Option<State>, version: nat, env: Envelope): Done {
    var gate := GateVerdict(state, env.identity, d.receipts);
    if gate.Answer? then Done(Shown(gate.reply), state, version, d)
    else Handled(app, cx, d, state.value, version, env)
  }

  /** The events behind the stream, and with an identity the receipt that names them. */
  function Persisted(t: Triple, d: Durable, version: nat, identity: Option<Identity>, events: seq<Event>): Durable {
    Durable(
      d.stream + events,
      if identity.None? then d.receipts
      else d.receipts[identity.value.key := ReceiptFor(t, identity.value, OutcomeFor(version, events))],
      d.snap)
  }

  function Handled(app: Application, cx: Context, d: Durable, st: State, version: nat, env: Envelope): Done {
    match app.handleCommand(env, st)
    case None => Done(ToldHandlerFailed, Some(st), version, d)
    case Some(events) =>
      if events == [] then
        Done(ToldNoEvents(st), Some(st), version, if env.identity.None? then d else Persisted(cx.triple, d, version, env.identity, []))
      else if cx.offset + |d.stream| != version then Done(ToldPersistenceFailed, Some(st), version, d)
      else Concluded(app, cx.ent, Persisted(cx.triple, d, version, env.identity, events), st, version, env, events)
  }

  /** After the commit: apply, maybe snapshot, hand the effects over. */
  function Concluded(app: Application, ent: Entity, d: Durable, st: State, version: nat, env: Envelope, events: seq<Event>): Done {
    match ent.applyEvents(st, events)
    case None => Done(ToldPersistenceFailed, Some(st), version, d)
    case Some(st') =>
      var v := version + |events|;
      var effects := app.acceptEffects(env, st', events);
      Done(if effects.NoneDescribed? || effects.Taken? then ToldEvents(st', events) else ToldEffectsFailed(st', events),
           Some(st'), v,
           if app.shouldTakeSnapshot(v, |events|) then d.(snap := Some(Snap(v, ent.encode(st')))) else d)
  }

  // ------------------------------------------------------------------------------------------
  // What a command keeps
  // ------------------------------------------------------------------------------------------

  lemma AppliedIsReplayed(cx: Context, d: Durable, st: State, events: seq<Event>)
    requires Lawful(cx.ent) && Replay(cx.ent, cx.genesis, d.stream) == Some(st) && events != []
    ensures Replay(cx.ent, cx.genesis, d.stream + events) == cx.ent.applyEvents(st, events)
  {
    ReplaySplit(cx.ent, cx.genesis, d.stream, events);
  }

  /**
   * A command that does not fail leaves the state the fold of the stream. One that fails does so
   * because the application cannot apply its own events, never for a version conflict, unless the
   * store has a negative offset: there every append is refused and nothing is written.
   */
  lemma ExecutedStaysUpToDate(app: Application, cx: Context, d: Durable, state: Option<State>, version: nat, env: Envelope)
    requires Lawful(cx.ent) && UpToDate(cx, d, state, version)
    ensures var r := Executed(app, cx, d, state, version, env);
      if !r.told.ToldPersistenceFailed? then UpToDate(cx, r.d, r.state, r.version)
      else if cx.offset < 0 then r.d == d
      else Replay(cx.ent, cx.genesis, r.d.stream) == None
  {
    var gate := GateVerdict(state, env.identity, d.receipts);
    if !gate.Answer? {
      match app.handleCommand(env, state.value)
      case None =>
      case Some(events) =>
        if events == [] {
          assert d.stream + [] == d.stream;
        } else {
          AppliedIsReplayed(cx, d, state.value, events);
        }
    }
  }

  /** Which answer the caller gets, from the entity's state, its receipts, the handler and the store's version. */
  lemma AnswerIs(app: Application, cx: Context, d: Durable, state: Option<State>, version: nat, env: Envelope)
    ensures var told := Executed(app, cx, d, state, version, env).told;
      var known := env.identity.Some? && env.identity.value.key in d.receipts;
      && (told.ToldNotActive? <==> state.None?)
      && (told.ToldReplayed? <==> state.Some? && known && d.receipts[env.identity.value.key].fingerprint == env.identity.value.fingerprint)
      && (told.ToldReplayed? ==> told.outcome == d.receipts[env.identity.value.key].outcome)
      && (told.ToldConflict? <==> state.Some? && known && d.receipts[env.identity.value.key].fingerprint != env.identity.value.fingerprint)
      && (told.ToldConflict? ==> told.key == env.identity.value.key)
      && (told.ToldHandlerFailed? <==> state.Some? && !known && app.handleCommand(env, state.value).None?)
      && (told.ToldNoEvents? <==> state.Some? && !known && app.handleCommand(env, state.value) == Some([]))
      && (told.ToldNoEvents? ==> told.state == state.value)
      && (told.ToldEvents? || told.ToldEffectsFailed? ==>
            && state.Some? && !known && cx.offset + |d.stream| == version
            && app.handleCommand(env, state.value) == Some(told.events) && told.events != []
            && cx.ent.applyEvents(state.value, told.events) == Some(told.state)
            && var effects := app.acceptEffects(env, told.state, told.events);
               told.ToldEffectsFailed? <==> effects == NoAcceptor || effects == NotTaken)
  {
  }

  /** A snapshot is taken exactly when events were applied and the strategy asks for one, of the new state at the new version. */
  lemma SnapshotIs(app: Application, cx: Context, d: Durable, state: Option<State>, version: nat, env: Envelope)
    ensures var r := Executed(app, cx, d, state, version, env);
      if (r.told.ToldEvents? || r.told.ToldEffectsFailed?) && app.shouldTakeSnapshot(version + |r.told.events|, |r.told.events|)
      then r.d.snap == Some(Snap(version + |r.told.events|, cx.ent.encode(r.told.state)))
      else r.d.snap == d.snap
  {
  }

  /** A caller can tell all replies of the machine apart, but for which execution they report. */
  lemma ShownTellsApart(a: Reply, b: Reply)
    ensures Shown(a) == Shown(b) <==>
      || a == b
      || (a.DoneWithEvents? && b.DoneWithEvents? && a.state == b.state && a.events == b.events)
      || (a.EffectsNotAccepted? && b.EffectsNotAccepted? && a.state == b.state && a.events == b.events)
    ensures Shown(a).ToldNotActive? <==> a.NotActive?
    ensures Shown(a).ToldPersistenceFailed? <==> a.PersistenceFailed?
    ensures Shown(a).ToldHandlerFailed? <==> a.HandlerFailed?
    ensures Shown(a).ToldEffectsFailed? <==> a.EffectsNotAccepted?
  {
  }

  /** The command was carried through: its events, if any, are in the stream, and with an identity its receipt is filed. */
  predicate CarriedThrough(told: Told) {
    told.ToldNoEvents? || told.ToldEvents? || told.ToldEffectsFailed?
  }

  function EventsTold(told: Told): seq<Event> {
    if told.ToldEvents? || told.ToldEffectsFailed? then told.events else []
  }

  /**
   * Told of events, the caller finds exactly those at the end of the stream; told that persistence
   * failed, its state and version stand, and the handler's events are in the store or nothing is,
   * depending on the store's version; any other answer leaves the store as it was.
   */
  lemma ToldIsStored(app: Application, cx: Context, d: Durable, state: Option<State>, version: nat, env: Envelope)
    ensures var r := Executed(app, cx, d, state, version, env);
      && (CarriedThrough(r.told) ==> r.d.stream == d.stream + EventsTold(r.told))
      && (CarriedThrough(r.told) && env.identity.Some? ==>
            env.identity.value.key !in d.receipts
            && r.d.receipts == d.receipts[env.identity.value.key := ReceiptFor(cx.triple, env.identity.value, OutcomeFor(version, EventsTold(r.told)))])
      && (r.told.ToldPersistenceFailed? ==>
            && r.state == state && r.version == version && state.Some?
            && var handled := app.handleCommand(env, state.value);
               && handled.Some? && handled.value != []
               && r.d == if cx.offset + |d.stream| == version then Persisted(cx.triple, d, version, env.identity, handled.value) else d)
      && (!CarriedThrough(r.told) && !r.told.ToldPersistenceFailed? ==> r.d == d)
  {
    assert d.stream + [] == d.stream;
  }

  /** The command's receipt was filed: it was carried through, or committed by an actor that then failed. */
  ghost predicate Files(d: Durable, env: Envelope, d': Durable) {
    env.identity.Some? && env.identity.value.key !in d.receipts && env.identity.value.key in d'.receipts
  }

  /**
   * A retry of a command whose receipt was filed, against any later activation's state and version and
   * whatever the application: the same request is told the recorded outcome, which names what it
   * appended, another request under its key is refused, and neither changes anything.
   */
  lemma RetryIsReplayed(app: Application, cx: Context, d: Durable, state: Option<State>, version: nat, env: Envelope,
                        app': Application, state': Option<State>, version': nat, env': Envelope)
    requires Files(d, env, Executed(app, cx, d, state, version, env).d) && state'.Some?
    requires env'.identity.Some? && env'.identity.value.key == env.identity.value.key
    ensures var r := Executed(app, cx, d, state, version, env);
      && d.stream <= r.d.stream
      && Executed(app', cx, r.d, state', version', env') == Done(
           if env'.identity.value.fingerprint == env.identity.value.fingerprint
           then ToldReplayed(OutcomeFor(version, r.d.stream[|d.stream|..])) else ToldConflict(env.identity.value.key),
           state', version', r.d)
  {
    ToldIsStored(app, cx, d, state, version, env);
  }

  // ------------------------------------------------------------------------------------------
  // A whole queue
  // ------------------------------------------------------------------------------------------

  /** What went out on reply channels so far, and the state, version and stores. */
  datatype Batch = Batch(sent: seq<(nat, Told)>, state: Option<State>, version: nat, d: Durable)

  function AfterOne(app: Application, cx: Context, b: Batch, env: Envelope): Batch {
    var r := Executed(app, cx, b.d, b.state, b.version, env);
    Batch(b.sent + [(env.id, r.told)], r.state, r.version, r.d)
  }

  predicate Fails(app: Application, cx: Context, b: Batch, env: Envelope) {
    Executed(app, cx, b.d, b.state, b.version, env).told.ToldPersistenceFailed?
  }

  /** Where serving a queue ends: with what, with whom left waiting, and whether the actor failed. */
  datatype Service = Service(now: Batch, left: seq<Envelope>, failed: bool)

  /** One command after the other, up to the first that fails the actor. */
  function Serve(app: Application, cx: Context, b: Batch, queue: seq<Envelope>): Service
    decreases |queue|
  {
    if queue == [] then Service(b, [], false)
    else if Fails(app, cx, b, queue[0]) then Service(AfterOne(app, cx, b, queue[0]), queue[1..], true)
    else Serve(app, cx, AfterOne(app, cx, b, queue[0]), queue[1..])
  }

  function Refusals(queue: seq<Envelope>, told: Told): seq<(nat, Told)> {
    if queue == [] then [] else [(queue[0].id, told)] + Refusals(queue[1..], told)
  }

  /** The end of the activation: whoever is left is refused; an actor that did not fail is snapshotted. */
  function Ended(ent: Entity, s: Service): Batch {
    s.now.(
      sent := s.now.sent + Refusals(s.left, ToldPersistenceFailed),
      d := if s.failed || s.now.state.None? then s.now.d
           else s.now.d.(snap := Some(Snap(s.now.version, ent.encode(s.now.state.value)))))
  }

  /** Serving the queue from the state and version that recovery rebuilds. */
  function Recovers(app: Application, cx: Context, b: Batch, queue: seq<Envelope>): Service {
    match Rebuild(cx.ent, cx.Base(), b.d.snap, b.d.stream)
    case None => Service(b, queue, true)
    case Some((st, v)) => Serve(app, cx, b.(state := Some(st), version := v), queue)
  }

  /** A whole activation, from recovery to its end. */
  function Lifetime(app: Application, cx: Context, b: Batch, queue: seq<Envelope>): Batch {
    if Rebuild(cx.ent, cx.Base(), b.d.snap, b.d.stream).None? then b.(sent := b.sent + Refusals(queue, ToldNotActive))
    else Ended(cx.ent, Recovers(app, cx, b, queue))
  }

  function Ids(queue: seq<Envelope>): seq<nat> {
    seq(|queue|, i requires 0 <= i < |queue| => queue[i].id)
  }

  function Receivers(sent: seq<(nat, Told)>): seq<nat> {
    seq(|sent|, i requires 0 <= i < |sent| => sent[i].0)
  }

  lemma {:induction false} RefusedAreAnswered(sent: seq<(nat, Told)>, queue: seq<Envelope>, told: Told)
    ensures Receivers(sent + Refusals(queue, told)) == Receivers(sent) + Ids(queue)
    decreases |queue|
  {
    if queue == [] {
      assert sent + [] == sent;
    } else {
      RefusedAreAnswered(sent + [(queue[0].id, told)], queue[1..], told);
      assert sent + [(queue[0].id, told)] + Refusals(queue[1..], told) == sent + Refusals(queue, told);
      assert Ids(queue) == [queue[0].id] + Ids(queue[1..]);
    }
  }

  /** Every command in the queue gets exactly one reply, in the order of the queue, failure or not. */
  lemma {:induction false} EveryoneIsAnswered(app: Application, cx: Context, b: Batch, queue: seq<Envelope>)
    ensures Receivers(Ended(cx.ent, Serve(app, cx, b, queue)).sent) == Receivers(b.sent) + Ids(queue)
    decreases |queue|
  {
    if queue == [] {
      RefusedAreAnswered(b.sent, [], ToldPersistenceFailed);
    } else {
      var b' := AfterOne(app, cx, b, queue[0]);
      assert Receivers(b'.sent) == Receivers(b.sent) + [queue[0].id];
      assert Ids(queue) == [queue[0].id] + Ids(queue[1..]);
      if Fails(app, cx, b, queue[0]) {
        RefusedAreAnswered(b'.sent, queue[1..], ToldPersistenceFailed);
      } else {
        EveryoneIsAnswered(app, cx, b', queue[1..]);
      }
    }
  }

  /** Serving a queue without failure leaves the state the fold of the stream. */
  lemma {:induction false} ServeStaysUpToDate(app: Application, cx: Context, b: Batch, queue: seq<Envelope>)
    requires Lawful(cx.ent) && UpToDate(cx, b.d, b.state, b.version)
    ensures var s := Serve(app, cx, b, queue);
      if s.failed then cx.offset < 0 || Replay(cx.ent, cx.genesis, s.now.d.stream) == None
      else s.left == [] && UpToDate(cx, s.now.d, s.now.state, s.now.version)
    decreases |queue|
  {
    if queue != [] {
      ExecutedStaysUpToDate(app, cx, b.d, b.state, b.version, queue[0]);
      if !Fails(app, cx, b, queue[0]) {
        ServeStaysUpToDate(app, cx, AfterOne(app, cx, b, queue[0]), queue[1..]);
      }
    }
  }

  // ------------------------------------------------------------------------------------------
  // Passivation, or death between two commands, cannot be told from going on
  // ------------------------------------------------------------------------------------------

  /** The same but for the snapshot. */
  ghost predicate Alike(a: Batch, b: Batch) {
    a.sent == b.sent && a.state == b.state && a.version == b.version && a.d.stream == b.d.stream && a.d.receipts == b.d.receipts
  }

  lemma OneAlike(app: Application, cx: Context, a: Batch, b: Batch, env: Envelope)
    requires Alike(a, b)
    ensures Alike(AfterOne(app, cx, a, env), AfterOne(app, cx, b, env)) && (Fails(app, cx, a, env) <==> Fails(app, cx, b, env))
  {
  }

  lemma {:induction false} ServeAlike(app: Application, cx: Context, a: Batch, b: Batch, queue: seq<Envelope>)
    requires Alike(a, b)
    ensures var s, t := Serve(app, cx, a, queue), Serve(app, cx, b, queue);
      Alike(s.now, t.now) && s.left == t.left && s.failed == t.failed
    decreases |queue|
  {
    if queue != [] {
      OneAlike(app, cx, a, b, queue[0]);
      ServeAlike(app, cx, AfterOne(app, cx, a, queue[0]), AfterOne(app, cx, b, queue[0]), queue[1..]);
    }
  }

  lemma {:induction false} ServeSplit(app: Application, cx: Context, b: Batch, queue: seq<Envelope>, more: seq<Envelope>)
    requires !Serve(app, cx, b, queue).failed
    ensures Serve(app, cx, b, queue + more) == Serve(app, cx, Serve(app, cx, b, queue).now, more)
    decreases |queue|
  {
    if queue == [] {
      assert queue + more == more;
    } else {
      assert (queue + more)[0] == queue[0] && (queue + more)[1..] == queue[1..] + more;
      ServeSplit(app, cx, AfterOne(app, cx, b, queue[0]), queue[1..], more);
    }
  }

  /**
   * Some commands, then a new activation over what they left in the stores, with any valid snapshot,
   * then more commands: callers hear, and the stream and receipts hold, what they would had the
   * first activation gone on.
   */
  lemma ReactivationIsInvisible(app: Application, cx: Context, b: Batch, queue: seq<Envelope>, more: seq<Envelope>, b': Batch)
    requires Lawful(cx.ent) && UpToDate(cx, b.d, b.state, b.version)
    requires var s := Serve(app, cx, b, queue);
      && !s.failed && b'.sent == s.now.sent && b'.d.stream == s.now.d.stream && b'.d.receipts == s.now.d.receipts
      && SnapValid(cx.ent, cx.genesis, cx.Base(), b'.d.snap, b'.d.stream)
    ensures Alike(Lifetime(app, cx, b', more), Ended(cx.ent, Serve(app, cx, b, queue + more)))
  {
    var now := Serve(app, cx, b, queue).now;
    ServeStaysUpToDate(app, cx, b, queue);
    ServeSplit(app, cx, b, queue, more);
    LifetimeGoesOn(app, cx, now, b', more);
  }

  lemma LifetimeGoesOn(app: Application, cx: Context, now: Batch, b': Batch, more: seq<Envelope>)
    requires Lawful(cx.ent) && UpToDate(cx, now.d, now.state, now.version)
    requires b'.sent == now.sent && b'.d.stream == now.d.stream && b'.d.receipts == now.d.receipts
    requires SnapValid(cx.ent, cx.genesis, cx.Base(), b'.d.snap, b'.d.stream)
    ensures Alike(Lifetime(app, cx, b', more), Ended(cx.ent, Serve(app, cx, now, more)))
  {
    var r := b'.(state := now.state, version := now.version);
    SnapshotPlusSuffix(cx.ent, cx.genesis, cx.Base(), b'.d.snap, b'.d.stream);
    assert Rebuild(cx.ent, cx.Base(), b'.d.snap, b'.d.stream) == Some((now.state.value, now.version));
    assert Lifetime(app, cx, b', more) == Ended(cx.ent, Serve(app, cx, r, more));
    ServeAlike(app, cx, r, now, more);
  }

  /** In particular after an orderly end: the snapshot it leaves is valid. */
  lemma EndLeavesValidSnapshot(app: Application, cx: Context, b: Batch, queue: seq<Envelope>)
    requires Lawful(cx.ent) && RoundTrips(cx.ent) && UpToDate(cx, b.d, b.state, b.version) && !Serve(app, cx, b, queue).failed
    ensures var e := Ended(cx.ent, Serve(app, cx, b, queue));
      && SnapValid(cx.ent, cx.genesis, cx.Base(), e.d.snap, e.d.stream)
      && e.sent == Serve(app, cx, b, queue).now.sent
  {
    ServeStaysUpToDate(app, cx, b, queue);
    var s := Serve(app, cx, b, queue);
    assert s.now.sent + [] == s.now.sent;
    assert s.now.d.stream[..|s.now.d.stream|] == s.now.d.stream;
  }
}
