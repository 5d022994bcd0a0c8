/** No caller is left hanging: the fate of every accepted command, over every run of one entity. */
module CellCallers {
  import opened Entities
  import opened ActorMachine
  import opened Cell

  /** The commands that wait: with the guard, then in the queue. */
  function Pending(a: Activation): seq<Envelope> {
    (if a.pc.GuardAnswering? then a.pc.left else []) + a.queue
  }

  function InHand(a: Activation): Option<nat> {
    if a.pc.Executing? then Some(a.pc.env.id) else None
  }

  predicate WaitsIn(a: Activation, id: nat) {
    exists i :: 0 <= i < |Pending(a)| && Pending(a)[i].id == id
  }

  predicate WasAnswered(h: History, id: nat) {
    exists i :: 0 <= i < |h.replies| && h.replies[i].id == id
  }

  ghost predicate PendingOk(w: World, e: nat)
    requires e in w.acts
  {
    var p := Pending(w.acts[e]);
    && (forall i :: 0 <= i < |p| ==> p[i].id in w.hist.fates && w.hist.fates[p[i].id] == Fate(e, Waiting))
    && (forall i, j :: 0 <= i < j < |p| ==> p[i].id != p[j].id)
    && (InHand(w.acts[e]).Some? ==>
          InHand(w.acts[e]).value in w.hist.fates && w.hist.fates[InHand(w.acts[e]).value] == Fate(e, Held))
  }

  ghost predicate FateOk(w: World, id: nat)
    requires id in w.hist.fates
  {
    var f := w.hist.fates[id];
    && f.epoch in w.acts
    && match f.place
       case Waiting => WaitsIn(w.acts[f.epoch], id)
       case Held => InHand(w.acts[f.epoch]) == Some(id)
       case Answered => WasAnswered(w.hist, id)
       case Lost => Dead(w.acts[f.epoch])
  }

  ghost predicate RepliesOnce(h: History) {
    && (forall i :: 0 <= i < |h.replies| ==>
          h.replies[i].id in h.fates && h.fates[h.replies[i].id].place == Answered)
    && (forall i, j :: 0 <= i < j < |h.replies| ==> h.replies[i].id != h.replies[j].id)
  }

  ghost predicate LostOnce(h: History) {
    forall i, j :: i in h.fates && j in h.fates && h.fates[i].place == Lost && h.fates[j] == h.fates[i] ==> i == j
  }

  ghost predicate FatesOk(w: World) {
    && (forall e :: e in w.acts ==> PendingOk(w, e))
    && (forall id :: id in w.hist.fates ==> FateOk(w, id))
    && RepliesOnce(w.hist)
    && LostOnce(w.hist)
  }

  // ------------------------------------------------------------------------------------------
  // What a step does with commands
  // ------------------------------------------------------------------------------------------

  /** A command moves from the head of the line into the actor's hands. */
  predicate Takes(a: Activation, a': Activation, id: nat) {
    && |Pending(a)| > 0 && Pending(a)[0].id == id && Pending(a') == Pending(a)[1..]
    && InHand(a) == None && InHand(a') == Some(id)
  }

  /** A command is answered: the one in hand, or the head of the line. */
  predicate Answers(a: Activation, a': Activation, id: nat) {
    || (InHand(a) == Some(id) && InHand(a') == None && Pending(a') == Pending(a))
    || (|Pending(a)| > 0 && Pending(a)[0].id == id && Pending(a') == Pending(a)[1..] && InHand(a) == None && InHand(a') == None)
  }

  predicate Holds(a: Activation, a': Activation) {
    Pending(a') == Pending(a) && InHand(a') == InHand(a)
  }

  lemma ExecuteCommands(ent: Entity, t: Triple, a: Activation, l: Label, a': Activation)
    requires a.pc.Executing? && Executes(ent, t, a, l, a')
    ensures !l.Receive?
    ensures l.AnswerTo? ==> Answers(a, a', l.id)
    ensures !l.AnswerTo? ==> Holds(a, a')
  {
  }

  lemma GuardCommands(a: Activation, l: Label, a': Activation)
    requires Guards(a, l, a')
    ensures !l.Receive?
    ensures l.AnswerTo? ==> Answers(a, a', l.id)
    ensures !l.AnswerTo? ==> Holds(a, a')
  {
    assert a.pc.GuardTaking? ==> Pending(a') == Pending(a);
    assert a.pc.GuardAnswering? && l.AnswerTo? ==> Pending(a') == Pending(a)[1..];
  }

  lemma RunCommands(ent: Entity, base: nat, a: Activation, l: Label, a': Activation)
    requires Runs(ent, base, a, l, a')
    ensures l.Receive? ==> a.queue != [] && Takes(a, a', a.queue[0].id)
    ensures l.AnswerTo? ==> Answers(a, a', l.id)
    ensures !l.Receive? && !l.AnswerTo? ==> Holds(a, a')
  {
    assert Pending(a) == a.queue && Pending(a') == a'.queue;
  }

  lemma ActCommands(ent: Entity, base: nat, t: Triple, a: Activation, l: Label, a': Activation)
    requires Acts(ent, base, t, a, l, a')
    ensures l.Receive? ==> a.queue != [] && Takes(a, a', a.queue[0].id)
    ensures l.AnswerTo? ==> Answers(a, a', l.id)
    ensures !l.Receive? && !l.AnswerTo? ==> Holds(a, a')
  {
    if a.pc.Executing? {
      ExecuteCommands(ent, t, a, l, a');
    } else if Dead(a) {
      GuardCommands(a, l, a');
    } else {
      RunCommands(ent, base, a, l, a');
    }
  }

  /** Where the head of the line leaves, the others still wait. */
  lemma HeadLeaves(a: Activation, a': Activation, id: nat)
    requires |Pending(a)| > 0 && Pending(a') == Pending(a)[1..] && WaitsIn(a, id) && id != Pending(a)[0].id
    ensures WaitsIn(a', id)
  {
    var i :| 0 <= i < |Pending(a)| && Pending(a)[i].id == id;
    assert Pending(a')[i - 1].id == id;
  }

  lemma HoldKeepsFates(w: World, w': World, e: nat)
    requires FatesOk(w) && e in w.acts && e in w'.acts && Holds(w.acts[e], w'.acts[e])
    requires w'.acts == w.acts[e := w'.acts[e]] && (Dead(w.acts[e]) ==> Dead(w'.acts[e]))
    requires w'.hist.fates == w.hist.fates && w'.hist.replies == w.hist.replies
    ensures FatesOk(w')
  {
    forall f | f in w'.acts
      ensures PendingOk(w', f)
    {
      assert PendingOk(w, f);
    }
    forall id | id in w'.hist.fates
      ensures FateOk(w', id)
    {
      assert FateOk(w, id);
    }
  }

  lemma TakeKeepsPending(w: World, w': World, e: nat, id: nat, f: nat)
    requires FatesOk(w) && e in w.acts && e in w'.acts && Takes(w.acts[e], w'.acts[e], id)
    requires w'.acts == w.acts[e := w'.acts[e]] && f in w'.acts
    requires w'.hist.fates == w.hist.fates[id := Fate(e, Held)]
    ensures PendingOk(w', f)
  {
    assert PendingOk(w, e) && PendingOk(w, f);
    assert w.hist.fates[id] == Fate(e, Waiting);
  }

  lemma TakeKeepsFate(w: World, w': World, e: nat, id: nat, j: nat)
    requires FatesOk(w) && e in w.acts && e in w'.acts && Takes(w.acts[e], w'.acts[e], id)
    requires w'.acts == w.acts[e := w'.acts[e]] && !Dead(w.acts[e])
    requires w'.hist.fates == w.hist.fates[id := Fate(e, Held)] && w'.hist.replies == w.hist.replies
    requires j in w'.hist.fates
    ensures FateOk(w', j)
  {
    if j != id {
      assert FateOk(w, j);
      if w.hist.fates[j] == Fate(e, Waiting) { HeadLeaves(w.acts[e], w'.acts[e], j); }
    }
  }

  lemma TakeKeepsFates(w: World, w': World, e: nat, id: nat)
    requires FatesOk(w) && e in w.acts && e in w'.acts && Takes(w.acts[e], w'.acts[e], id)
    requires w'.acts == w.acts[e := w'.acts[e]] && !Dead(w.acts[e])
    requires w'.hist.fates == w.hist.fates[id := Fate(e, Held)] && w'.hist.replies == w.hist.replies
    ensures FatesOk(w')
  {
    assert PendingOk(w, e);
    assert w.hist.fates[id] == Fate(e, Waiting);
    forall f | f in w'.acts
      ensures PendingOk(w', f)
    {
      TakeKeepsPending(w, w', e, id, f);
    }
    forall j | j in w'.hist.fates
      ensures FateOk(w', j)
    {
      TakeKeepsFate(w, w', e, id, j);
    }
  }

  lemma AnswerKeepsPending(w: World, w': World, e: nat, id: nat, f: nat)
    requires FatesOk(w) && e in w.acts && e in w'.acts && Answers(w.acts[e], w'.acts[e], id)
    requires w'.acts == w.acts[e := w'.acts[e]] && f in w'.acts
    requires w'.hist.fates == w.hist.fates[id := Fate(e, Answered)]
    ensures PendingOk(w', f)
  {
    assert PendingOk(w, e) && PendingOk(w, f);
    var p := Pending(w.acts[f]);
    if f == e && InHand(w.acts[e]) == Some(id) {
      forall i | 0 <= i < |p|
        ensures p[i].id != id
      {
        assert w.hist.fates[p[i].id] == Fate(e, Waiting);
      }
    }
  }

  lemma AnswerKeepsFate(w: World, w': World, e: nat, id: nat, reply: Reply, j: nat)
    requires FatesOk(w) && e in w.acts && e in w'.acts && Answers(w.acts[e], w'.acts[e], id)
    requires w'.acts == w.acts[e := w'.acts[e]] && (Dead(w.acts[e]) ==> Dead(w'.acts[e]))
    requires w'.hist.fates == w.hist.fates[id := Fate(e, Answered)]
    requires w'.hist.replies == w.hist.replies + [Replied(id, reply)]
    requires j in w'.hist.fates
    ensures FateOk(w', j)
  {
    assert w'.hist.replies[|w.hist.replies|].id == id;
    if j != id {
      assert FateOk(w, j);
      if w.hist.fates[j].place == Answered {
        var i :| 0 <= i < |w.hist.replies| && w.hist.replies[i].id == j;
        assert w'.hist.replies[i].id == j;
      } else if w.hist.fates[j] == Fate(e, Waiting) && Pending(w'.acts[e]) != Pending(w.acts[e]) {
        HeadLeaves(w.acts[e], w'.acts[e], j);
      }
    }
  }

  lemma AnswerKeepsFates(w: World, w': World, e: nat, id: nat, reply: Reply)
    requires FatesOk(w) && e in w.acts && e in w'.acts && Answers(w.acts[e], w'.acts[e], id)
    requires w'.acts == w.acts[e := w'.acts[e]] && (Dead(w.acts[e]) ==> Dead(w'.acts[e]))
    requires w'.hist.fates == w.hist.fates[id := Fate(e, Answered)]
    requires w'.hist.replies == w.hist.replies + [Replied(id, reply)]
    ensures FatesOk(w')
  {
    assert PendingOk(w, e);
    assert id in w.hist.fates && w.hist.fates[id].place != Answered && w.hist.fates[id].place != Lost;
    forall f | f in w'.acts
      ensures PendingOk(w', f)
    {
      AnswerKeepsPending(w, w', e, id, f);
    }
    forall j | j in w'.hist.fates
      ensures FateOk(w', j)
    {
      AnswerKeepsFate(w, w', e, id, reply, j);
    }
  }

  /** What a step of activation `e` does with commands, all told. */
  ghost predicate Shuffles(w: World, w': World, e: nat) {
    && e in w.acts && e in w'.acts && w'.acts == w.acts[e := w'.acts[e]]
    && (Dead(w.acts[e]) ==> Dead(w'.acts[e]))
    && var h, h', a, a' := w.hist, w'.hist, w.acts[e], w'.acts[e];
       || (Holds(a, a') && h'.fates == h.fates && h'.replies == h.replies)
       || (exists id :: Takes(a, a', id) && !Dead(a) && h'.fates == h.fates[id := Fate(e, Held)] && h'.replies == h.replies)
       || (exists id, reply :: Answers(a, a', id) && h'.fates == h.fates[id := Fate(e, Answered)]
             && h'.replies == h.replies + [Replied(id, reply)])
  }

  lemma MoveShuffles(cx: Context, ent: Entity, w: World, w': World, e: nat, l: Label)
    requires Acted(cx, ent, w, w', e, l)
    ensures Shuffles(w, w', e)
  {
    var a, a' := w.acts[e], w'.acts[e];
    ActCommands(ent, cx.Base(), cx.triple, a, l, a');
    if Dead(a) { DeadStops(ent, cx.Base(), cx.triple, a, l, a'); }
    if l.AnswerTo? { assert w'.hist.replies == w.hist.replies + [Replied(l.id, l.reply)]; }
  }

  lemma ShuffleKeepsFates(w: World, w': World, e: nat)
    requires FatesOk(w) && Shuffles(w, w', e)
    ensures FatesOk(w')
  {
    var h, h', a, a' := w.hist, w'.hist, w.acts[e], w'.acts[e];
    if Holds(a, a') && h'.fates == h.fates && h'.replies == h.replies {
      HoldKeepsFates(w, w', e);
    } else if id :| Takes(a, a', id) && !Dead(a) && h'.fates == h.fates[id := Fate(e, Held)] && h'.replies == h.replies {
      TakeKeepsFates(w, w', e, id);
    } else {
      var id, reply :| Answers(a, a', id) && h'.fates == h.fates[id := Fate(e, Answered)]
        && h'.replies == h.replies + [Replied(id, reply)];
      AnswerKeepsFates(w, w', e, id, reply);
    }
  }

  lemma EnqueueKeepsFate(w: World, w': World, e: nat, env: Envelope, j: nat)
    requires FatesOk(w) && Enqueues(w, w', e, env) && j in w'.hist.fates
    ensures FateOk(w', j)
  {
    var p := Pending(w.acts[e]);
    assert Pending(w'.acts[e]) == p + [env];
    if j == env.id {
      assert Pending(w'.acts[e])[|p|].id == j;
    } else {
      assert FateOk(w, j);
      if w.hist.fates[j] == Fate(e, Waiting) {
        var i :| 0 <= i < |p| && p[i].id == j;
        assert Pending(w'.acts[e])[i].id == j;
      }
    }
  }

  lemma EnqueueKeepsPending(w: World, w': World, e: nat, env: Envelope, f: nat)
    requires FatesOk(w) && Enqueues(w, w', e, env) && f in w'.acts
    ensures PendingOk(w', f)
  {
    assert PendingOk(w, f);
    if f == e { assert Pending(w'.acts[e]) == Pending(w.acts[e]) + [env]; }
  }

  lemma EnqueueKeepsFates(w: World, w': World, e: nat, env: Envelope)
    requires FatesOk(w) && Enqueues(w, w', e, env)
    ensures FatesOk(w')
  {
    forall f | f in w'.acts
      ensures PendingOk(w', f)
    {
      EnqueueKeepsPending(w, w', e, env, f);
    }
    forall j | j in w'.hist.fates
      ensures FateOk(w', j)
    {
      EnqueueKeepsFate(w, w', e, env, j);
    }
  }

  lemma DieKeepsPending(w: World, w': World, e: nat, f: nat)
    requires FatesOk(w) && Dies(w, w', e) && f in w'.acts
    ensures PendingOk(w', f)
  {
    assert PendingOk(w, e) && PendingOk(w, f);
    assert Pending(w'.acts[e]) == Pending(w.acts[e]);
  }

  lemma DieKeepsFate(w: World, w': World, e: nat, j: nat)
    requires FatesOk(w) && Dies(w, w', e) && j in w'.hist.fates
    ensures FateOk(w', j)
  {
    assert PendingOk(w, e);
    assert Pending(w'.acts[e]) == Pending(w.acts[e]);
    if InHand(w.acts[e]) != Some(j) {
      assert FateOk(w, j);
      if w.hist.fates[j] == Fate(e, Waiting) { assert WaitsIn(w.acts[e], j); }
    }
  }

  lemma DieKeepsFates(w: World, w': World, e: nat)
    requires FatesOk(w) && Dies(w, w', e)
    ensures FatesOk(w')
  {
    assert PendingOk(w, e);
    forall f | f in w'.acts
      ensures PendingOk(w', f)
    {
      DieKeepsPending(w, w', e, f);
    }
    forall j | j in w'.hist.fates
      ensures FateOk(w', j)
    {
      DieKeepsFate(w, w', e, j);
    }
    forall i | i in w.hist.fates
      ensures w.hist.fates[i] != Fate(e, Lost)
    {
      assert FateOk(w, i);
    }
  }

  lemma ActivateKeepsFates(w: World, w': World, e: nat, capacity: nat)
    requires FatesOk(w) && Routed(w) && Activates(w, w', e, capacity)
    ensures FatesOk(w')
  {
    forall f | f in w'.acts
      ensures PendingOk(w', f)
    {
      if f != e { assert PendingOk(w, f); }
    }
    forall j | j in w'.hist.fates
      ensures FateOk(w', j)
    {
      assert FateOk(w, j);
    }
  }

  lemma ElsewhereKeepsFates(w: World, w': World)
    requires FatesOk(w) && Elsewhere(w, w')
    ensures FatesOk(w')
  {
    forall f | f in w'.acts
      ensures PendingOk(w', f)
    {
      assert PendingOk(w, f);
    }
    forall j | j in w'.hist.fates
      ensures FateOk(w', j)
    {
      assert FateOk(w, j);
    }
  }

  lemma StepKeepsFates(cx: Context, w: World, w': World)
    requires FatesOk(w) && Routed(w) && LooseStep(cx, w, w')
    ensures FatesOk(w')
  {
    if ent, e, l :| Acted(cx, ent, w, w', e, l) {
      MoveShuffles(cx, ent, w, w', e, l);
      ShuffleKeepsFates(w, w', e);
    } else if e, capacity :| Activates(w, w', e, capacity) {
      ActivateKeepsFates(w, w', e, capacity);
    } else if Elsewhere(w, w') {
      ElsewhereKeepsFates(w, w');
    } else if e, env :| Enqueues(w, w', e, env) {
      EnqueueKeepsFates(w, w', e, env);
    } else {
      var e :| Dies(w, w', e);
      DieKeepsFates(w, w', e);
    }
  }

  lemma {:induction false} RunKeepsFates(cx: Context, run: seq<World>)
    requires IsLooseRun(cx, run)
    ensures FatesOk(run[|run| - 1]) && Routed(run[|run| - 1]) && Lives(run[|run| - 1])
  {
    if |run| > 1 {
      var w := run[|run| - 2];
      RunKeepsFates(cx, run[..|run| - 1]);
      StepKeepsFates(cx, w, run[|run| - 1]);
      StepKeepsRouted(cx, w, run[|run| - 1]);
      StepKeepsLives(cx, w, run[|run| - 1]);
    }
  }

  /** How often a command was answered. */
  function TimesAnswered(replies: seq<Replied>, id: nat): nat {
    if replies == [] then 0 else (if replies[0].id == id then 1 else 0) + TimesAnswered(replies[1..], id)
  }

  lemma {:induction false} AnsweredOnce(replies: seq<Replied>, id: nat)
    requires forall i, j :: 0 <= i < j < |replies| ==> replies[i].id != replies[j].id
    ensures TimesAnswered(replies, id) == if exists i :: 0 <= i < |replies| && replies[i].id == id then 1 else 0
  {
    if replies != [] {
      AnsweredOnce(replies[1..], id);
      if i :| 0 <= i < |replies| && replies[i].id == id {
        if i > 0 { assert replies[1..][i - 1].id == id; }
      }
      if i :| 0 <= i < |replies[1..]| && replies[1..][i].id == id {
        assert replies[i + 1].id == id;
      }
    }
  }

  lemma ReachableFates(cx: Context, w: World)
    requires LooselyReachable(cx, w)
    ensures FatesOk(w) && Routed(w) && Lives(w)
  {
    var run :| IsLooseRun(cx, run) && run[|run| - 1] == w;
    RunKeepsFates(cx, run);
  }

  /**
   * When the guard of activation `e` has removed its entry, every command the activation accepted
   * has been answered exactly once, except at most one that the actor held when it died.
   */
  lemma NoCallerLeftHanging(cx: Context, w: World, e: nat)
    requires LooselyReachable(cx, w) && e in w.acts && Detached(w.acts[e])
    ensures var h := w.hist;
      && (forall id :: id in h.fates && h.fates[id].epoch == e ==>
            (h.fates[id].place == Answered && TimesAnswered(h.replies, id) == 1) ||
            (h.fates[id].place == Lost && TimesAnswered(h.replies, id) == 0))
      && (forall i, j :: i in h.fates && j in h.fates && h.fates[i] == h.fates[j] == Fate(e, Lost) ==> i == j)
  {
    ReachableFates(cx, w);
    forall id | id in w.hist.fates && w.hist.fates[id].epoch == e
      ensures (w.hist.fates[id].place == Answered && TimesAnswered(w.hist.replies, id) == 1) ||
              (w.hist.fates[id].place == Lost && TimesAnswered(w.hist.replies, id) == 0)
    {
      SettledFate(w, e, id);
    }
  }

  lemma SettledFate(w: World, e: nat, id: nat)
    requires FatesOk(w) && Lives(w) && e in w.acts && Detached(w.acts[e]) && id in w.hist.fates && w.hist.fates[id].epoch == e
    ensures (w.hist.fates[id].place == Answered && TimesAnswered(w.hist.replies, id) == 1) ||
            (w.hist.fates[id].place == Lost && TimesAnswered(w.hist.replies, id) == 0)
  {
    assert FateOk(w, id) && LifeOk(w.acts[e]);
    AnsweredOnce(w.hist.replies, id);
  }

  /** Nobody is answered twice. */
  lemma NobodyAnsweredTwice(cx: Context, w: World, id: nat)
    requires LooselyReachable(cx, w)
    ensures TimesAnswered(w.hist.replies, id) <= 1
  {
    ReachableFates(cx, w);
    AnsweredOnce(w.hist.replies, id);
  }
}
