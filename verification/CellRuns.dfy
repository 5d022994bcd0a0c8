/** The invariant of one entity over every run, and what follows from it. */
module CellRuns {
  import opened Entities
  import opened ActorMachine
  import opened Cell
  import opened CellKeys
  import opened CellVersions

  ghost predicate Versions(cx: Context, w: World) {
    && VersionStore(cx, w.store, w.hist)
    && (forall e :: e in w.acts ==> VersionAct(cx, w.store, w.acts[e]))
  }

  ghost predicate Inv(cx: Context, w: World) {
    KeyInv(cx, w) && Lives(w) && Versions(cx, w)
  }

  lemma InvAt(cx: Context, w: World, e: nat)
    requires Inv(cx, w) && e in w.acts
    ensures LifeOk(w.acts[e]) && StoreOk(cx, w.store, w.hist) && ActOk(cx, w.store, w.hist, w.acts[e])
  {
  }

  lemma MoveKeepsOtherVersions(cx: Context, ent: Entity, w: World, w': World, e: nat, l: Label, f: nat)
    requires Inv(cx, w) && Moves(cx, ent, w, w', e, l) && f in w.acts && f != e
    ensures f in w'.acts && VersionAct(cx, w'.store, w'.acts[f])
  {
    if Dead(w.acts[e]) {
      GuardsKeepsVersions(cx, w.store, w.hist, e, w.acts[e], l, w'.acts[e], w'.store, w'.hist);
    } else {
      OtherIsDead(w, e, f);
    }
  }

  lemma MoveKeepsVersions(cx: Context, ent: Entity, w: World, w': World, e: nat, l: Label)
    requires Inv(cx, w) && Moves(cx, ent, w, w', e, l)
    ensures Versions(cx, w')
  {
    InvAt(cx, w, e);
    ActKeeps(cx, ent, w.store, w.hist, e, w.acts[e], l, w'.acts[e], w'.store, w'.hist);
    forall f | f in w'.acts
      ensures VersionAct(cx, w'.store, w'.acts[f])
    {
      if f != e { MoveKeepsOtherVersions(cx, ent, w, w', e, l, f); }
    }
  }

  /** Lookups, sends and deaths leave the stores alone. */
  lemma AsideKeepsVersions(cx: Context, w: World, w': World)
    requires Versions(cx, w) && w'.store == w.store && w'.hist.log == w.hist.log
    requires forall e :: e in w'.acts ==> VersionAct(cx, w.store, w'.acts[e])
    ensures Versions(cx, w')
  {
  }

  lemma EnqueueKeepsVersions(cx: Context, w: World, w': World, e: nat, env: Envelope)
    requires Versions(cx, w) && Enqueues(w, w', e, env)
    ensures Versions(cx, w')
  {
    assert VersionAct(cx, w.store, w.acts[e]);
    AsideKeepsVersions(cx, w, w');
  }

  lemma StepKeepsVersions(cx: Context, w: World, w': World)
    requires Inv(cx, w) && Step(cx, w, w')
    ensures Versions(cx, w')
  {
    if ent, e, l :| Moves(cx, ent, w, w', e, l) {
      MoveKeepsVersions(cx, ent, w, w', e, l);
    } else if e, capacity :| Activates(w, w', e, capacity) {
      AsideKeepsVersions(cx, w, w');
    } else if EpochsPass(w, w') {
      AsideKeepsVersions(cx, w, w');
    } else if e, env :| Enqueues(w, w', e, env) {
      EnqueueKeepsVersions(cx, w, w', e, env);
    } else {
      var e :| Dies(w, w', e);
      AsideKeepsVersions(cx, w, w');
    }
  }

  /** Every step of anyone keeps the invariant, whatever the application does. */
  lemma StepKeepsInv(cx: Context, w: World, w': World)
    requires Inv(cx, w) && Step(cx, w, w')
    ensures Inv(cx, w')
  {
    StepIsKeyed(cx, w, w');
    StepKeepsKeys(cx, w, w');
    KeyedIsLoose(cx, w, w');
    StepKeepsLives(cx, w, w');
    StepKeepsVersions(cx, w, w');
  }

  lemma InitInv(cx: Context, w: World)
    requires Init(cx, w)
    ensures Inv(cx, w)
  {
    InitKeys(cx, w);
  }

  lemma {:induction false} RunKeepsInv(cx: Context, run: seq<World>)
    requires IsRun(cx, run)
    ensures Inv(cx, run[|run| - 1])
  {
    if |run| == 1 {
      InitInv(cx, run[0]);
    } else {
      var before := run[..|run| - 1];
      var w, w' := before[|before| - 1], run[|run| - 1];
      assert IsRun(cx, before) && Step(cx, w, w');
      RunKeepsInv(cx, before);
      StepKeepsInv(cx, w, w');
    }
  }

  lemma ReachableInv(cx: Context, w: World)
    requires Reachable(cx, w)
    ensures Inv(cx, w)
  {
    var run :| IsRun(cx, run) && run[|run| - 1] == w;
    RunKeepsInv(cx, run);
  }
}
