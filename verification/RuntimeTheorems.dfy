/** The promises of the runtime, for every run of a whole deployment. */
module RuntimeTheorems {
  import opened Entities
  import opened EventStore
  import opened Recovery
  import opened Lifecycle
  import opened ActorMachine
  import opened Cell
  import opened CellKeys
  import opened CellTheorems
  import opened CellCallers
  import opened Runtime

  lemma {:induction false} RunShaped(cfg: Config, run: seq<System>)
    requires IsSysRun(cfg, run)
    ensures Shaped(cfg, run[|run| - 1])
  {
    if |run| > 1 {
      RunShaped(cfg, run[..|run| - 1]);
      StepKeepsShape(cfg, run[|run| - 2], run[|run| - 1]);
    }
  }

  /** An activation and its owner, in a reachable state of the system. */
  lemma OwnerOf(cfg: Config, s: System, e: nat) returns (t: Triple)
    requires SysReachable(cfg, s) && e in s.acts
    ensures e in s.owner && t == s.owner[e] && t in cfg.triples && t in s.hist
    ensures e in ActsOf(s, t) && ActsOf(s, t)[e] == s.acts[e]
  {
    var run :| IsSysRun(cfg, run) && run[|run| - 1] == s;
    RunShaped(cfg, run);
    t := s.owner[e];
  }

  /** Two activations of one entity that both still hold their routing entry are one, and the registry names it. */
  lemma OneWriterPerEntity(cfg: Config, s: System, e: nat, f: nat)
    requires SysReachable(cfg, s) && e in s.acts && f in s.acts && !Detached(s.acts[e]) && !Detached(s.acts[f])
    requires e in s.owner && f in s.owner && s.owner[e] == s.owner[f]
    ensures e == f && s.owner[e] in s.active && s.active[s.owner[e]] == e
  {
    var t := OwnerOf(cfg, s, e);
    var u := OwnerOf(cfg, s, f);
    EntityLooselyReachable(cfg, s, t);
    OneWriter(ContextOf(cfg, t), Project(s, t), e, f);
  }

  lemma InRangeIsReachable(cfg: Config, s: System, u: Triple)
    requires SysReachableInRange(cfg, s, u)
    ensures SysReachable(cfg, s)
  {
  }

  lemma GenesisIsReachable(cfg: Config, s: System, u: Triple)
    requires SysReachableFromGenesis(cfg, s, u)
    ensures SysReachable(cfg, s)
  {
  }

  /**
   * An active actor of an entity with one application, lawful and with snapshots that decode, holds
   * the fold of its own stream in the shared store, at the version that recovery counts.
   */
  lemma EveryActiveIsCurrent(cfg: Config, s: System, e: nat, t: Triple)
    requires e in s.acts && e in s.owner && s.owner[e] == t && SysReachableFromGenesis(cfg, s, t)
    requires !Blank(t.tenant) && Alone(cfg, t) && Steady(cfg, t) && Lawful(cfg.ent(t, 0)) && RoundTrips(cfg.ent(t, 0))
    requires s.acts[e].lifecycle == Active && !Dead(s.acts[e]) && !Applying(s.acts[e])
    ensures s.acts[e].state.Some? && s.acts[e].state == Replay(cfg.ent(t, 0), cfg.genesis(t), StreamOf(s.store, KeyOf(t)))
    ensures s.acts[e].version == ContextOf(cfg, t).Base() + |StreamOf(s.store, KeyOf(t))|
  {
    GenesisIsReachable(cfg, s, t);
    var u := OwnerOf(cfg, s, e);
    EntityReachableFromGenesis(cfg, s, t);
    ActiveIsCurrent(ContextOf(cfg, t), Project(s, t), e);
  }

  lemma EveryActiveIsNumbered(cfg: Config, s: System, e: nat, t: Triple)
    requires !Blank(t.tenant) && Alone(cfg, t) && SysReachableInRange(cfg, s, t) && t in cfg.triples && e in ActsOf(s, t)
    requires var a := ActsOf(s, t)[e]; a.lifecycle == Active && !Dead(a) && !Applying(a)
    ensures ActsOf(s, t)[e].version == ContextOf(cfg, t).Base() + |StreamOf(s.store, KeyOf(t))|
  {
    EntityReachable(cfg, s, t);
    ActiveIsNumbered(ContextOf(cfg, t), Project(s, t), e);
  }

  /** Whatever the applications do, an active actor has the version the store expects exactly when the offset is not negative. */
  lemma EveryActiveIsExpected(cfg: Config, s: System, e: nat, t: Triple)
    requires e in s.acts && e in s.owner && s.owner[e] == t && SysReachableInRange(cfg, s, t)
    requires !Blank(t.tenant) && Alone(cfg, t)
    requires s.acts[e].lifecycle == Active && !Dead(s.acts[e]) && !Applying(s.acts[e])
    ensures s.acts[e].version == Version(cfg.offsets, s.store, KeyOf(t)) <==> OffsetOf(cfg.offsets, KeyOf(t)) >= 0
  {
    InRangeIsReachable(cfg, s, t);
    var u := OwnerOf(cfg, s, e);
    EveryActiveIsNumbered(cfg, s, e, t);
    CountsAgreeIff(cfg, s.store, t);
  }

  /** Recovery and the store count the same version exactly when the store's offset is not negative. */
  lemma CountsAgreeIff(cfg: Config, c: Committed, t: Triple)
    ensures ContextOf(cfg, t).Base() + |StreamOf(c, KeyOf(t))| == Version(cfg.offsets, c, KeyOf(t)) <==> OffsetOf(cfg.offsets, KeyOf(t)) >= 0
  {
  }

  /**
   * Per operation key of an entity, at most one committed execution and at most one acceptor call, in
   * any run of the system: for every tenant under which a retry finds its receipt, or finds no store.
   */
  lemma EveryOperationAtMostOnce(cfg: Config, s: System, t: Triple, key: string)
    requires SysReachable(cfg, s) && t in cfg.triples && (t.tenant == "" || !Blank(t.tenant))
    ensures t in s.hist
    ensures var h := s.hist[t];
      && (forall i, j :: 0 <= i < j < |h.log| && Carries(h.log[i], key) ==> !Carries(h.log[j], key))
      && (forall i :: 0 <= i < |h.accepts| ==> h.accepts[i] < |h.log|)
      && (forall i, j :: 0 <= i < j < |h.accepts| && Carries(h.log[h.accepts[i]], key) ==> !Carries(h.log[h.accepts[j]], key))
  {
    if t.tenant == "" {
      WithoutTenantNothingHappens(cfg, s, t);
    } else {
      EntityKeyedReachable(cfg, s, t);
      AtMostOnce(ContextOf(cfg, t), Project(s, t), key);
    }
  }

  // ------------------------------------------------------------------------------------------
  // Without a tenant nothing is ever executed
  // ------------------------------------------------------------------------------------------

  /** Never past recovery. */
  predicate Stuck(a: Activation) {
    a.pc.Spawned? || a.pc.SnapshotLoaded? || a.pc.CloseToFlush? || a.pc.Flushing? || Dead(a)
  }

  ghost predicate AllStuck(s: System, t: Triple) {
    && t in s.hist && s.hist[t].log == [] && s.hist[t].accepts == []
    && (forall e :: e in s.acts && e in s.owner && s.owner[e] == t ==> Stuck(s.acts[e]))
  }

  lemma StuckStays(ent: Entity, base: nat, t: Triple, a: Activation, l: Label, a': Activation)
    requires Stuck(a) && Acts(ent, base, t, a, l, a') && !NeedsTenant(l)
    ensures Stuck(a') && !WritesStream(l) && !l.CallAcceptor?
  {
  }

  lemma MoveKeepsStuck(cfg: Config, s: System, s': System, e: nat, l: Label, t: Triple)
    requires t.tenant == "" && AllStuck(s, t) && SysMoves(cfg, s, s', e, l)
    ensures AllStuck(s', t)
  {
    if s.owner[e] == t {
      StuckStays(cfg.ent(t, e), ContextOf(cfg, t).Base(), t, s.acts[e], l, s'.acts[e]);
    }
  }

  lemma StepKeepsStuck(cfg: Config, s: System, s': System, t: Triple)
    requires t.tenant == "" && AllStuck(s, t) && SysStep(cfg, s, s')
    ensures AllStuck(s', t)
  {
    if e, l :| SysMoves(cfg, s, s', e, l) {
      MoveKeepsStuck(cfg, s, s', e, l, t);
    } else if u, capacity :| SysActivates(cfg, s, s', u, capacity) {
      ActivateKeepsStuck(cfg, s, s', u, capacity, t);
    } else if e, env :| SysEnqueues(s, s', e, env) {
      EnqueueKeepsStuck(s, s', e, env, t);
    } else {
      var e :| SysDies(s, s', e);
      DieKeepsStuck(s, s', e, t);
    }
  }

  lemma ActivateKeepsStuck(cfg: Config, s: System, s': System, u: Triple, capacity: nat, t: Triple)
    requires AllStuck(s, t) && SysActivates(cfg, s, s', u, capacity)
    ensures AllStuck(s', t)
  {
  }

  lemma EnqueueKeepsStuck(s: System, s': System, e: nat, env: Envelope, t: Triple)
    requires AllStuck(s, t) && SysEnqueues(s, s', e, env)
    ensures AllStuck(s', t)
  {
  }

  lemma DieKeepsStuck(s: System, s': System, e: nat, t: Triple)
    requires AllStuck(s, t) && SysDies(s, s', e)
    ensures AllStuck(s', t)
  {
  }

  lemma {:induction false} RunKeepsStuck(cfg: Config, run: seq<System>, t: Triple)
    requires t.tenant == "" && t in cfg.triples && IsSysRun(cfg, run)
    ensures AllStuck(run[|run| - 1], t)
  {
    if |run| > 1 {
      RunKeepsStuck(cfg, run[..|run| - 1], t);
      StepKeepsStuck(cfg, run[|run| - 2], run[|run| - 1], t);
    }
  }

  /** The store refuses an entity without a tenant, so none of its activations gets past recovery. */
  lemma WithoutTenantNothingHappens(cfg: Config, s: System, t: Triple)
    requires t.tenant == "" && t in cfg.triples && SysReachable(cfg, s)
    ensures t in s.hist && s.hist[t].log == [] && s.hist[t].accepts == []
  {
    var run :| IsSysRun(cfg, run) && run[|run| - 1] == s;
    RunKeepsStuck(cfg, run, t);
  }

  // ------------------------------------------------------------------------------------------
  // Streams, whatever the tenants
  // ------------------------------------------------------------------------------------------

  ghost predicate Written(s: System, t: Triple) {
    t in s.hist && StreamOf(s.store, KeyOf(t)) == AllEvents(s.hist[t].log)
  }

  lemma AllEventsMore(log: seq<Entry>, entry: Entry)
    ensures AllEvents(log + [entry]) == AllEvents(log) + entry.events
  {
    assert (log + [entry])[..|log|] == log;
  }

  /** A stream grows by what its own entity writes, and by nothing else. */
  lemma StreamAfter(offsets: Offsets, t: Triple, c: Committed, snaps: map<string, Snap>, l: Label, c': Committed, snaps': map<string, Snap>, u: Triple)
    requires RealStep(offsets, t, c, snaps, l, c', snaps')
    ensures StreamOf(c', KeyOf(u)) == if WritesStream(l) && t == u then StreamOf(c, KeyOf(u)) + l.events else StreamOf(c, KeyOf(u))
  {
    if t != u { KeysApart(t, u); }
    match l
    case CommitUnit(_, events, r, _) => CommitViews(c, t, events, r, c', KeyOf(u));
    case _ =>
  }

  lemma MoveKeepsWritten(cfg: Config, s: System, s': System, e: nat, l: Label, u: Triple)
    requires Written(s, u) && SysMoves(cfg, s, s', e, l)
    ensures Written(s', u)
  {
    var t := s.owner[e];
    StreamAfter(cfg.offsets, t, s.store, s.snapshots, l, s'.store, s'.snapshots, u);
    if t == u && WritesStream(l) {
      AllEventsMore(s.hist[t].log, Entry(s.acts[e].pc.env.identity, s.acts[e].pc.env.id, l.expected, l.events));
    }
  }

  lemma StepKeepsWritten(cfg: Config, s: System, s': System, u: Triple)
    requires Written(s, u) && SysStep(cfg, s, s')
    ensures Written(s', u)
  {
    if e, l :| SysMoves(cfg, s, s', e, l) {
      MoveKeepsWritten(cfg, s, s', e, l, u);
    } else if t, capacity :| SysActivates(cfg, s, s', t, capacity) {
    } else if e, env :| SysEnqueues(s, s', e, env) {
    } else {
      var e :| SysDies(s, s', e);
    }
  }

  lemma {:induction false} RunKeepsWritten(cfg: Config, run: seq<System>, u: Triple)
    requires IsSysRun(cfg, run) && u in cfg.triples
    ensures Written(run[|run| - 1], u)
  {
    if |run| > 1 {
      RunKeepsWritten(cfg, run[..|run| - 1], u);
      StepKeepsWritten(cfg, run[|run| - 2], run[|run| - 1], u);
    }
  }

  /** The shared store holds of each stream exactly what its committed executions wrote, in any deployment. */
  lemma EveryStreamIsItsLog(cfg: Config, s: System, t: Triple)
    requires SysReachable(cfg, s) && t in cfg.triples
    ensures t in s.hist && StreamOf(s.store, KeyOf(t)) == AllEvents(s.hist[t].log)
  {
    var run :| IsSysRun(cfg, run) && run[|run| - 1] == s;
    RunKeepsWritten(cfg, run, t);
  }

  // ------------------------------------------------------------------------------------------
  // Callers
  // ------------------------------------------------------------------------------------------

  /** Once an activation has given up its entry, each command it accepted was answered once, but for at most one lost with it. */
  lemma EveryCallerHears(cfg: Config, s: System, e: nat)
    requires SysReachable(cfg, s) && e in s.acts && Detached(s.acts[e])
    ensures e in s.owner && s.owner[e] in s.hist
    ensures var h := s.hist[s.owner[e]];
      && (forall id :: id in h.fates && h.fates[id].epoch == e ==>
            (h.fates[id].place == Answered && TimesAnswered(h.replies, id) == 1) ||
            (h.fates[id].place == Lost && TimesAnswered(h.replies, id) == 0))
      && (forall i, j :: i in h.fates && j in h.fates && h.fates[i] == h.fates[j] == Fate(e, Lost) ==> i == j)
  {
    var t := OwnerOf(cfg, s, e);
    EntityLooselyReachable(cfg, s, t);
    NoCallerLeftHanging(ContextOf(cfg, t), Project(s, t), e);
  }
}
