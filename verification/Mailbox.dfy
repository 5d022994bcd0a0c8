/**
 * The bounded mailbox (crates/persistent-entity/src/mailbox.rs).
 *
 * `Shared` is what the lock, the closed flag and the two `Notify` cells hold; the functions on it
 * are the sections the code runs without interruption. A `Notify` is a generation number: a
 * `notified()` future captures it when it is created and completes once it has moved on.
 */
module Mailbox {

  datatype Shared<T> = Shared(
    queue: seq<T>, capacity: nat, closed: bool, notEmpty: nat, notFull: nat)

  datatype SendOutcome = Accepted | Rejected | Full

  datatype RecvOutcome<T> = Item(item: T) | Exhausted | Nothing

  /** The locked section of `send`: the closed flag first, then room, then push and notify. */
  function SendSection<T>(m: Shared<T>, item: T): (r: (Shared<T>, SendOutcome)) {
    if m.closed then (m, Rejected)
    else if |m.queue| < m.capacity then
      (m.(queue := m.queue + [item], notEmpty := m.notEmpty + 1), Accepted)
    else (m, Full)
  }

  /** The locked section of `recv`: an item first, the closed flag only when there is none. */
  function RecvSection<T>(m: Shared<T>): (r: (Shared<T>, RecvOutcome<T>)) {
    if m.queue != [] then (m.(queue := m.queue[1..], notFull := m.notFull + 1), Item(m.queue[0]))
    else if m.closed then (m, Exhausted)
    else (m, Nothing)
  }

  /** The mailbox object. Each method is one uninterrupted section, or a sequence of them. */
  class BoundedMailbox<T> {
    var queue: seq<T>
    const capacity: nat
    var closed: bool
    var notEmpty: nat
    var notFull: nat

    ghost function Contents(): Shared<T>
      reads this
    {
      Shared(queue, capacity, closed, notEmpty, notFull)
    }

    constructor (capacity: nat)
      ensures Contents() == Shared([], capacity, false, 0, 0)
    {
      this.capacity := capacity;
      queue, closed, notEmpty, notFull := [], false, 0, 0;
    }

    /** One attempt of `send`; `Full` means the task goes on to wait. */
    method SendAttempt(item: T) returns (outcome: SendOutcome)
      modifies this
      ensures (Contents(), outcome) == SendSection(old(Contents()), item)
    {
      if closed {
        return Rejected;
      }
      if |queue| < capacity {
        queue := queue + [item];
        notEmpty := notEmpty + 1;
        return Accepted;
      }
      return Full;
    }

    /** One attempt of `recv`; `Nothing` means the task goes on to wait. */
    method RecvAttempt() returns (outcome: RecvOutcome<T>)
      modifies this
      ensures (Contents(), outcome) == RecvSection(old(Contents()))
    {
      if queue != [] {
        outcome := Item(queue[0]);
        queue := queue[1..];
        notFull := notFull + 1;
        return;
      }
      outcome := if closed then Exhausted else Nothing;
    }

    method Close()
      modifies this
      ensures Contents() == old(Contents()).(closed := true, notEmpty := old(notEmpty) + 1, notFull := old(notFull) + 1)
    {
      closed := true;
      notEmpty := notEmpty + 1;
      notFull := notFull + 1;
    }

    method CloseAndDrain() returns (drained: seq<T>)
      modifies this
      ensures drained == old(queue)
      ensures Contents() == Shared([], capacity, true, old(notEmpty) + 1, old(notFull) + 1)
    {
      closed := true;
      drained := queue;
      queue := [];
      notEmpty := notEmpty + 1;
      notFull := notFull + 1;
    }
  }

  // ------------------------------------------------------------------------------------------
  // Any number of tasks over one mailbox
  // ------------------------------------------------------------------------------------------

  /** Where a task stands in `send`, `recv`, `close` or `close_and_drain`. An item is named by its sender. */
  datatype Task =
    | SendReady | SendArmed(gen: nat) | SendAsleep(gen: nat) | SendOk | SendRefused
    | RecvReady | RecvArmed(gen: nat) | RecvAsleep(gen: nat) | RecvOk(item: nat) | RecvClosed
    | CloseStart | CloseMarked | CloseToldReceivers | CloseDone
    | DrainStart | DrainMarked | DrainTaken(items: seq<nat>) | DrainToldReceivers(items: seq<nat>) | DrainDone(items: seq<nat>)
    | Gone

  /** The mailbox, its tasks, and what was accepted, received and drained so far, in that order. */
  datatype System = System(
    m: Shared<nat>, tasks: map<nat, Task>, accepted: seq<nat>, received: seq<nat>, drained: seq<nat>)

  predicate Starting(t: Task) {
    t.SendReady? || t.RecvReady? || t.CloseStart? || t.DrainStart?
  }

  /** A pending `send` or `recv` future may be dropped, as `select!` does with a losing branch. */
  predicate Droppable(t: Task) {
    t.SendReady? || t.SendArmed? || t.SendAsleep? || t.RecvReady? || t.RecvArmed? || t.RecvAsleep?
  }

  ghost predicate Init(s: System) {
    && s.m.queue == [] && !s.m.closed && s.m.notEmpty == 0 && s.m.notFull == 0
    && s.tasks == map[] && s.accepted == [] && s.received == [] && s.drained == []
  }

  function With(s: System, i: nat, t: Task): System {
    s.(tasks := s.tasks[i := t])
  }

  predicate CanMove(s: System, i: nat) {
    && i in s.tasks
    && match s.tasks[i]
       case SendAsleep(gen) => gen != s.m.notFull
       case RecvAsleep(gen) => gen != s.m.notEmpty
       case SendOk => false
       case SendRefused => false
       case RecvOk(_) => false
       case RecvClosed => false
       case CloseDone => false
       case DrainDone(_) => false
       case Gone => false
       case _ => true
  }

  /** The next uninterrupted section of task `i`. */
  function Move(s: System, i: nat): System
    requires CanMove(s, i)
  {
    match s.tasks[i]
    case SendReady => With(s, i, SendArmed(s.m.notFull))
    case SendArmed(gen) =>
      var (m, outcome) := SendSection(s.m, i);
      (match outcome
       case Accepted => With(s, i, SendOk).(m := m, accepted := s.accepted + [i])
       case Rejected => With(s, i, SendRefused)
       case Full => With(s, i, SendAsleep(gen)))
    case SendAsleep(_) => With(s, i, SendReady)
    case RecvReady => With(s, i, RecvArmed(s.m.notEmpty))
    case RecvArmed(gen) =>
      var (m, outcome) := RecvSection(s.m);
      (match outcome
       case Item(item) => With(s, i, RecvOk(item)).(m := m, received := s.received + [item])
       case Exhausted => With(s, i, RecvClosed)
       case Nothing => With(s, i, RecvAsleep(gen)))
    case RecvAsleep(_) => With(s, i, RecvReady)
    case CloseStart => With(s, i, CloseMarked).(m := s.m.(closed := true))
    case CloseMarked => With(s, i, CloseToldReceivers).(m := s.m.(notEmpty := s.m.notEmpty + 1))
    case CloseToldReceivers => With(s, i, CloseDone).(m := s.m.(notFull := s.m.notFull + 1))
    case DrainStart => With(s, i, DrainMarked).(m := s.m.(closed := true))
    case DrainMarked =>
      With(s, i, DrainTaken(s.m.queue)).(m := s.m.(queue := []), drained := s.drained + s.m.queue)
    case DrainTaken(items) => With(s, i, DrainToldReceivers(items)).(m := s.m.(notEmpty := s.m.notEmpty + 1))
    case DrainToldReceivers(items) => With(s, i, DrainDone(items)).(m := s.m.(notFull := s.m.notFull + 1))
    case t => With(s, i, t)
  }

  ghost predicate Spawned(s: System, s': System, i: nat, t: Task) {
    i !in s.tasks && Starting(t) && s' == With(s, i, t)
  }

  ghost predicate Dropped(s: System, s': System, i: nat) {
    i in s.tasks && Droppable(s.tasks[i]) && s' == With(s, i, Gone)
  }

  ghost predicate Step(s: System, s': System) {
    || (exists i :: CanMove(s, i) && s' == Move(s, i))
    || (exists i, t :: Spawned(s, s', i, t))
    || (exists i :: Dropped(s, s', i))
  }

  ghost predicate IsRun(run: seq<System>) {
    |run| > 0 &&
    if |run| == 1 then Init(run[0])
    else IsRun(run[..|run| - 1]) && Step(run[|run| - 2], run[|run| - 1])
  }

  // ------------------------------------------------------------------------------------------
  // Invariants
  // ------------------------------------------------------------------------------------------

  predicate Distinct(q: seq<nat>) {
    forall i, j :: 0 <= i < j < |q| ==> q[i] != q[j]
  }

  /** Accepted items are received, then drained, then still queued: in order, none lost, none twice. */
  ghost predicate Conserved(s: System) {
    && s.accepted == s.received + s.drained + s.m.queue
    && |s.m.queue| <= s.m.capacity
    && (s.drained != [] ==> s.m.closed && s.m.queue == [])
    && Distinct(s.accepted)
    && (forall i :: i in s.accepted <==> i in s.tasks && s.tasks[i].SendOk?)
  }

  predicate PastMark(t: Task) {
    t.CloseMarked? || t.CloseToldReceivers? || t.CloseDone? || t.DrainMarked? || PastTake(t)
  }

  predicate PastTake(t: Task) {
    t.DrainTaken? || t.DrainToldReceivers? || t.DrainDone?
  }

  /** Closing is for good; whoever found the mailbox exhausted or drained it left it empty for good. */
  ghost predicate ClosedFacts(s: System) {
    && (forall i :: i in s.tasks && (PastMark(s.tasks[i]) || s.tasks[i].SendRefused?) ==> s.m.closed)
    && (forall i :: i in s.tasks && (s.tasks[i].RecvClosed? || PastTake(s.tasks[i])) ==> s.m.closed && s.m.queue == [])
  }

  /** What a task was handed, to keep. */
  function Handed(t: Task): seq<nat> {
    match t
    case RecvOk(item) => [item]
    case DrainTaken(items) => items
    case DrainToldReceivers(items) => items
    case DrainDone(items) => items
    case _ => []
  }

  predicate Has(tasks: map<nat, Task>, i: nat, x: nat) {
    i in tasks && x in Handed(tasks[i])
  }

  ghost predicate Taken(tasks: map<nat, Task>, x: nat) {
    exists i :: Has(tasks, i, x)
  }

  /** The tasks have exactly what was received and drained, no two the same; whoever drained anything has all that was. */
  ghost predicate Kept(s: System) {
    && (forall x :: x in s.received || x in s.drained <==> Taken(s.tasks, x))
    && (forall i, j, x :: Has(s.tasks, i, x) && Has(s.tasks, j, x) ==> i == j)
    && (forall i :: i in s.tasks && PastTake(s.tasks[i]) && s.tasks[i].items != [] ==> s.tasks[i].items == s.drained)
  }

  /** Task `i` was handed what is new, and nobody had any of it. */
  lemma HandsOver(s: System, i: nat, s': System, items: seq<nat>)
    requires Kept(s) && i in s'.tasks && s'.tasks == s.tasks[i := s'.tasks[i]]
    requires i in s.tasks ==> Handed(s.tasks[i]) == [] || items == []
    requires Handed(s'.tasks[i]) == (if i in s.tasks then Handed(s.tasks[i]) else []) + items
    requires forall x :: x in items ==> x !in s.received && x !in s.drained
    requires forall x :: x in s'.received || x in s'.drained <==> x in s.received || x in s.drained || x in items
    ensures forall x :: x in s'.received || x in s'.drained <==> Taken(s'.tasks, x)
    ensures forall j, k, x :: Has(s'.tasks, j, x) && Has(s'.tasks, k, x) ==> j == k
  {
    forall j, x
      ensures Has(s'.tasks, j, x) <==> Has(s.tasks, j, x) || (j == i && x in items)
    {
    }
    forall x
      ensures Taken(s'.tasks, x) <==> Taken(s.tasks, x) || x in items
    {
      if x in items { assert Has(s'.tasks, i, x); }
      if j :| Has(s.tasks, j, x) { assert Has(s'.tasks, j, x); }
    }
    forall j, k, x | Has(s'.tasks, j, x) && Has(s'.tasks, k, x)
      ensures j == k
    {
      if x in items { assert !Taken(s.tasks, x); }
    }
  }

  lemma QueuedIsNew(s: System, x: nat)
    requires Conserved(s) && x in s.m.queue
    ensures x !in s.received && x !in s.drained
  {
    var before := s.received + s.drained;
    var k :| 0 <= k < |s.m.queue| && s.m.queue[k] == x;
    assert s.accepted[|before| + k] == x;
    forall n | 0 <= n < |before|
      ensures before[n] != x
    {
      assert s.accepted[n] == before[n] && s.accepted[n] != s.accepted[|before| + k];
    }
    assert x !in before;
  }

  lemma HandsItem(s: System, i: nat, s': System)
    requires Conserved(s) && Kept(s) && CanMove(s, i) && s.tasks[i].RecvArmed? && s.m.queue != [] && s' == Move(s, i)
    ensures Kept(s')
  {
    var x := s.m.queue[0];
    QueuedIsNew(s, x);
    HandsOver(s, i, s', [x]);
  }

  lemma HandsQueue(s: System, i: nat, s': System)
    requires Conserved(s) && Kept(s) && CanMove(s, i) && s.tasks[i].DrainMarked? && s' == Move(s, i)
    ensures Kept(s')
  {
    forall x | x in s.m.queue
      ensures x !in s.received && x !in s.drained
    {
      QueuedIsNew(s, x);
    }
    HandsOver(s, i, s', s.m.queue);
  }

  lemma MoveKeepsKept(s: System, i: nat)
    requires Conserved(s) && Kept(s) && CanMove(s, i)
    ensures Kept(Move(s, i))
  {
    var s' := Move(s, i);
    if s.tasks[i].RecvArmed? && s.m.queue != [] {
      HandsItem(s, i, s');
    } else if s.tasks[i].DrainMarked? {
      HandsQueue(s, i, s');
    } else {
      HandsOver(s, i, s', []);
    }
  }

  /** A closer has set the flag and has not yet told the receivers. */
  predicate OwesReceivers(t: Task) {
    t.CloseMarked? || t.DrainMarked? || t.DrainTaken?
  }

  /** A closer has set the flag and has not yet told the senders. */
  predicate OwesSenders(t: Task) {
    OwesReceivers(t) || t.CloseToldReceivers? || t.DrainToldReceivers?
  }

  ghost predicate ReceiversOwed(s: System) {
    exists i :: i in s.tasks && OwesReceivers(s.tasks[i])
  }

  ghost predicate SendersOwed(s: System) {
    exists i :: i in s.tasks && OwesSenders(s.tasks[i])
  }

  /** No wakeup is lost: whoever sleeps on the current generation has reason to, or a notification is on its way. */
  ghost predicate NoLostWakeup(s: System) {
    && (forall i :: i in s.tasks && (s.tasks[i].SendArmed? || s.tasks[i].SendAsleep?) ==> s.tasks[i].gen <= s.m.notFull)
    && (forall i :: i in s.tasks && (s.tasks[i].RecvArmed? || s.tasks[i].RecvAsleep?) ==> s.tasks[i].gen <= s.m.notEmpty)
    && (forall i :: i in s.tasks && s.tasks[i] == RecvAsleep(s.m.notEmpty) ==>
          s.m.queue == [] && (s.m.closed ==> ReceiversOwed(s)))
    && (forall i :: i in s.tasks && s.tasks[i] == SendAsleep(s.m.notFull) ==>
          (s.m.closed ==> SendersOwed(s)) && (!s.m.closed ==> |s.m.queue| >= s.m.capacity))
  }

  ghost predicate Inv(s: System) {
    Conserved(s) && Kept(s) && ClosedFacts(s) && NoLostWakeup(s)
  }

  /** Accepting, receiving and draining move items along; every other section leaves them alone. */
  predicate MovesItems(s: System, s': System) {
    s'.m.queue != s.m.queue || s'.accepted != s.accepted || s'.received != s.received || s'.drained != s.drained
  }

  lemma SendConserves(s: System, i: nat, s': System)
    requires Conserved(s) && CanMove(s, i) && s.tasks[i].SendArmed? && SendSection(s.m, i).1.Accepted?
    requires s' == Move(s, i)
    ensures Conserved(s')
  {
    assert i !in s.accepted;
    assert s'.accepted == s.received + s.drained + s'.m.queue;
  }

  lemma RecvConserves(s: System, i: nat, s': System)
    requires Conserved(s) && CanMove(s, i) && s.tasks[i].RecvArmed? && s.m.queue != []
    requires s' == Move(s, i)
    ensures Conserved(s')
  {
    assert s.drained == [];
    assert s.m.queue == [s.m.queue[0]] + s.m.queue[1..];
    assert s'.accepted == s'.received + [] + s'.m.queue;
  }

  lemma DrainConserves(s: System, i: nat, s': System)
    requires Conserved(s) && ClosedFacts(s) && CanMove(s, i) && s.tasks[i].DrainMarked? && s' == Move(s, i)
    ensures Conserved(s')
  {
    assert PastMark(s.tasks[i]);
    assert s'.accepted == s.received + (s.drained + s.m.queue) + [];
  }

  lemma IdleConserves(s: System, i: nat, s': System)
    requires Conserved(s) && CanMove(s, i) && s' == Move(s, i) && !MovesItems(s, s')
    requires !s'.tasks[i].SendOk?
    ensures Conserved(s')
  {
    forall j
      ensures j in s'.accepted <==> j in s'.tasks && s'.tasks[j].SendOk?
    {
      assert j != i ==> (j in s'.tasks <==> j in s.tasks);
    }
  }

  lemma MoveConserves(s: System, i: nat)
    requires Conserved(s) && ClosedFacts(s) && CanMove(s, i)
    ensures Conserved(Move(s, i))
  {
    var s' := Move(s, i);
    if s.tasks[i].SendArmed? && SendSection(s.m, i).1.Accepted? {
      SendConserves(s, i, s');
    } else if s.tasks[i].RecvArmed? && s.m.queue != [] {
      RecvConserves(s, i, s');
    } else if s.tasks[i].DrainMarked? {
      DrainConserves(s, i, s');
    } else {
      IdleConserves(s, i, s');
    }
  }

  lemma MoveKeepsClosed(s: System, i: nat)
    requires ClosedFacts(s) && CanMove(s, i)
    ensures ClosedFacts(Move(s, i))
  {
  }

  lemma MoveKeepsArmed(s: System, i: nat)
    requires NoLostWakeup(s) && CanMove(s, i)
    ensures var s' := Move(s, i);
      && (forall j :: j in s'.tasks && (s'.tasks[j].SendArmed? || s'.tasks[j].SendAsleep?) ==> s'.tasks[j].gen <= s'.m.notFull)
      && (forall j :: j in s'.tasks && (s'.tasks[j].RecvArmed? || s'.tasks[j].RecvAsleep?) ==> s'.tasks[j].gen <= s'.m.notEmpty)
  {
  }

  /** A debt to the sleepers moves on to the next state of the same closer until it is paid. */
  lemma MoveKeepsReceiver(s: System, i: nat, s': System, j: nat)
    requires ClosedFacts(s) && NoLostWakeup(s) && CanMove(s, i) && s' == Move(s, i)
    requires j in s'.tasks && s'.tasks[j] == RecvAsleep(s'.m.notEmpty)
    ensures s'.m.queue == [] && (s'.m.closed ==> ReceiversOwed(s'))
  {
    if s'.m.closed && !OwesReceivers(s'.tasks[i]) {
      var k :| k in s.tasks && OwesReceivers(s.tasks[k]);
      assert k in s'.tasks && OwesReceivers(s'.tasks[k]);
    }
  }

  lemma MoveKeepsSender(s: System, i: nat, s': System, j: nat)
    requires ClosedFacts(s) && NoLostWakeup(s) && CanMove(s, i) && s' == Move(s, i)
    requires j in s'.tasks && s'.tasks[j] == SendAsleep(s'.m.notFull)
    ensures (s'.m.closed ==> SendersOwed(s')) && (!s'.m.closed ==> |s'.m.queue| >= s'.m.capacity)
  {
    if s'.m.closed && !OwesSenders(s'.tasks[i]) {
      var k :| k in s.tasks && OwesSenders(s.tasks[k]);
      assert k in s'.tasks && OwesSenders(s'.tasks[k]);
    }
  }

  lemma MoveKeepsWakeups(s: System, i: nat)
    requires ClosedFacts(s) && NoLostWakeup(s) && CanMove(s, i)
    ensures NoLostWakeup(Move(s, i))
  {
    var s' := Move(s, i);
    MoveKeepsArmed(s, i);
    forall j | j in s'.tasks && s'.tasks[j] == RecvAsleep(s'.m.notEmpty)
      ensures s'.m.queue == [] && (s'.m.closed ==> ReceiversOwed(s'))
    {
      MoveKeepsReceiver(s, i, s', j);
    }
    forall j | j in s'.tasks && s'.tasks[j] == SendAsleep(s'.m.notFull)
      ensures (s'.m.closed ==> SendersOwed(s')) && (!s'.m.closed ==> |s'.m.queue| >= s'.m.capacity)
    {
      MoveKeepsSender(s, i, s', j);
    }
  }

  lemma SetKeepsWakeups(s: System, i: nat, t: Task)
    requires NoLostWakeup(s) && (Starting(t) || t.Gone?)
    requires i in s.tasks ==> Droppable(s.tasks[i])
    ensures NoLostWakeup(With(s, i, t))
  {
    var s' := With(s, i, t);
    if ReceiversOwed(s) {
      var k :| k in s.tasks && OwesReceivers(s.tasks[k]);
      assert k in s'.tasks && OwesReceivers(s'.tasks[k]);
    }
    if SendersOwed(s) {
      var k :| k in s.tasks && OwesSenders(s.tasks[k]);
      assert k in s'.tasks && OwesSenders(s'.tasks[k]);
    }
  }

  /** A task that is new, or that is dropped while pending, disturbs nothing. */
  lemma SetKeepsInv(s: System, i: nat, t: Task)
    requires Inv(s) && (Starting(t) || t.Gone?)
    requires i in s.tasks ==> Droppable(s.tasks[i])
    ensures Inv(With(s, i, t))
  {
    SetKeepsWakeups(s, i, t);
    HandsOver(s, i, With(s, i, t), []);
  }

  lemma StepKeepsInv(s: System, s': System)
    requires Inv(s) && Step(s, s')
    ensures Inv(s')
  {
    if i :| CanMove(s, i) && s' == Move(s, i) {
      MoveConserves(s, i);
      MoveKeepsKept(s, i);
      MoveKeepsClosed(s, i);
      MoveKeepsWakeups(s, i);
    } else if i, t :| Spawned(s, s', i, t) {
      SetKeepsInv(s, i, t);
    } else {
      var i :| Dropped(s, s', i);
      SetKeepsInv(s, i, Gone);
    }
  }

  /** Every state of every interleaving keeps the invariant. */
  lemma {:induction false} RunKeepsInv(run: seq<System>)
    requires IsRun(run)
    ensures Inv(run[|run| - 1])
  {
    if |run| > 1 {
      RunKeepsInv(run[..|run| - 1]);
      StepKeepsInv(run[|run| - 2], run[|run| - 1]);
    }
  }

  // ------------------------------------------------------------------------------------------
  // What follows for every run
  // ------------------------------------------------------------------------------------------

  function Occurrences(q: seq<nat>, i: nat): nat {
    if q == [] then 0 else (if q[0] == i then 1 else 0) + Occurrences(q[1..], i)
  }

  lemma {:induction false} OccurrencesDistinct(q: seq<nat>, i: nat)
    requires Distinct(q)
    ensures Occurrences(q, i) == if i in q then 1 else 0
  {
    if q != [] { OccurrencesDistinct(q[1..], i); }
  }

  /** The tasks that were handed `x`. */
  ghost function Takers(tasks: map<nat, Task>, x: nat): set<nat> {
    set i | i in tasks && x in Handed(tasks[i])
  }

  lemma SliceDistinct(a: seq<nat>, b: seq<nat>, c: seq<nat>)
    requires Distinct(a + b + c)
    ensures Distinct(a) && Distinct(b) && Distinct(c)
  {
    var all := a + b + c;
    assert forall i :: 0 <= i < |a| ==> a[i] == all[i];
    assert forall i :: 0 <= i < |b| ==> b[i] == all[|a| + i];
    assert forall i :: 0 <= i < |c| ==> c[i] == all[|a| + |b| + i];
  }

  /**
   * A `send` that returned `Ok` has its item in exactly one place, once: still queued, or with the one
   * task that `recv` or `close_and_drain` handed it to. One that did not return `Ok` has it nowhere.
   */
  lemma ExactlyOnce(run: seq<System>, x: nat)
    requires IsRun(run)
    ensures var s := run[|run| - 1];
      && |Takers(s.tasks, x)| + Occurrences(s.m.queue, x) == (if x in s.tasks && s.tasks[x].SendOk? then 1 else 0)
      && forall i :: i in Takers(s.tasks, x) ==> Occurrences(Handed(s.tasks[i]), x) == 1
  {
    RunKeepsInv(run);
    var s := run[|run| - 1];
    SliceDistinct(s.received, s.drained, s.m.queue);
    OccurrencesDistinct(s.m.queue, x);
    forall i | i in s.tasks
      ensures Distinct(Handed(s.tasks[i]))
    {
      if PastTake(s.tasks[i]) && s.tasks[i].items != [] { assert s.tasks[i].items == s.drained; }
    }
    forall i | i in Takers(s.tasks, x)
      ensures Has(s.tasks, i, x) && Occurrences(Handed(s.tasks[i]), x) == 1
    {
      OccurrencesDistinct(Handed(s.tasks[i]), x);
    }
    TakenOnce(s, x);
  }

  lemma TakenOnce(s: System, x: nat)
    requires Conserved(s) && Kept(s)
    ensures |Takers(s.tasks, x)| == if x in s.accepted && x !in s.m.queue then 1 else 0
    ensures x in s.m.queue ==> x in s.accepted
  {
    if x in s.m.queue { QueuedIsNew(s, x); }
    if i: nat :| Has(s.tasks, i, x) {
      assert Taken(s.tasks, x);
      assert forall j :: j in Takers(s.tasks, x) ==> Has(s.tasks, j, x);
      assert Takers(s.tasks, x) == {i};
    } else {
      assert !Taken(s.tasks, x);
      assert forall j :: j in Takers(s.tasks, x) ==> Has(s.tasks, j, x);
      assert Takers(s.tasks, x) == {};
    }
  }

  lemma StepExtends(s: System, s': System)
    requires Step(s, s')
    ensures s.accepted <= s'.accepted
  {
  }

  lemma {:induction false} RunExtends(run: seq<System>, n: nat)
    requires IsRun(run) && n < |run|
    ensures run[n].accepted <= run[|run| - 1].accepted && IsRun(run[..n + 1])
    decreases |run|
  {
    assert run[..|run|] == run;
    if n < |run| - 1 {
      var before := run[..|run| - 1];
      RunExtends(before, n);
      assert before[..n + 1] == run[..n + 1];
      StepExtends(before[|before| - 1], run[|run| - 1]);
    }
  }

  lemma EarlierFirst(early: seq<nat>, taken: seq<nat>, queue: seq<nat>, x: nat, y: nat)
    requires early <= taken + queue && x in early && y !in early && y in taken
    ensures x in taken
  {
    var i :| 0 <= i < |early| && early[i] == x;
    var j :| 0 <= j < |taken| && taken[j] == y;
    var all := taken + queue;
    assert all[i] == x && all[j] == y;
    assert j >= |early|;
  }

  /** First in, first out: nobody is handed an item while one accepted earlier is still queued. */
  lemma FirstInFirstOut(run: seq<System>, n: nat, x: nat, y: nat)
    requires IsRun(run) && n < |run|
    requires x in run[n].tasks && run[n].tasks[x].SendOk? && !(y in run[n].tasks && run[n].tasks[y].SendOk?)
    requires Taken(run[|run| - 1].tasks, y)
    ensures Taken(run[|run| - 1].tasks, x)
  {
    var s := run[|run| - 1];
    RunExtends(run, n);
    RunKeepsInv(run);
    RunKeepsInv(run[..n + 1]);
    assert run[n] == run[..n + 1][n];
    EarlierFirst(run[n].accepted, s.received + s.drained, s.m.queue, x, y);
  }

  /** What a pass of `send`, of `recv` and of `close_and_drain` comes to. */
  lemma Verdicts(s: System, i: nat)
    requires CanMove(s, i)
    ensures var s' := Move(s, i);
      && (s.tasks[i].SendArmed? ==>
            && (s'.tasks[i].SendRefused? <==> s.m.closed)
            && (s'.tasks[i].SendOk? <==> !s.m.closed && |s.m.queue| < s.m.capacity)
            && (s'.tasks[i].SendOk? ==> s'.m.queue == s.m.queue + [i])
            && (s'.tasks[i] == SendAsleep(s.tasks[i].gen) <==> !s.m.closed && |s.m.queue| >= s.m.capacity))
      && (s.tasks[i].RecvArmed? ==>
            && (s'.tasks[i].RecvOk? <==> s.m.queue != [])
            && (s'.tasks[i].RecvOk? ==> s.m.queue == [s'.tasks[i].item] + s'.m.queue)
            && (s'.tasks[i].RecvClosed? <==> s.m.queue == [] && s.m.closed)
            && (s'.tasks[i] == RecvAsleep(s.tasks[i].gen) <==> s.m.queue == [] && !s.m.closed))
      && (s.tasks[i].DrainMarked? ==> Handed(s'.tasks[i]) == s.m.queue && s'.m.queue == [])
  {
  }

  datatype Role = Sender | Receiver | Closer | Drainer | Nobody

  function RoleOf(t: Task): Role {
    if t.SendReady? || t.SendArmed? || t.SendAsleep? || t.SendOk? || t.SendRefused? then Sender
    else if t.RecvReady? || t.RecvArmed? || t.RecvAsleep? || t.RecvOk? || t.RecvClosed? then Receiver
    else if t.CloseStart? || t.CloseMarked? || t.CloseToldReceivers? || t.CloseDone? then Closer
    else if t.Gone? then Nobody
    else Drainer
  }

  /** The call has returned. */
  predicate Returned(t: Task) {
    t.SendOk? || t.SendRefused? || t.RecvOk? || t.RecvClosed? || t.CloseDone? || t.DrainDone?
  }

  /** A task goes on with its own call, what it was handed stays with it, and a call that returned is over. */
  ghost predicate GoesOn(t: Task, t': Task) {
    && (RoleOf(t') == RoleOf(t) || (Droppable(t) && t'.Gone?))
    && Handed(t) <= Handed(t')
    && (Returned(t) || t.Gone? ==> t' == t)
  }

  lemma MoveGoesOn(s: System, k: nat, i: nat)
    requires CanMove(s, k) && i in s.tasks
    ensures i in Move(s, k).tasks && GoesOn(s.tasks[i], Move(s, k).tasks[i])
  {
    if i != k { assert Move(s, k).tasks[i] == s.tasks[i]; }
  }

  lemma StepGoesOn(s: System, s': System, i: nat)
    requires Step(s, s') && i in s.tasks
    ensures i in s'.tasks && GoesOn(s.tasks[i], s'.tasks[i])
  {
    if k :| CanMove(s, k) && s' == Move(s, k) {
      MoveGoesOn(s, k, i);
    }
  }

  /** What a call returned and what it was handed stand in every later state. */
  lemma {:induction false} OutcomesStand(run: seq<System>, n: nat, i: nat)
    requires IsRun(run) && n < |run| && i in run[n].tasks
    ensures var t := run[n].tasks[i];
      && i in run[|run| - 1].tasks
      && var t' := run[|run| - 1].tasks[i];
         && (Returned(t) ==> t' == t) && Handed(t) <= Handed(t') && (RoleOf(t') == RoleOf(t) || t'.Gone?)
    decreases |run|
  {
    if n < |run| - 1 {
      var before := run[..|run| - 1];
      OutcomesStand(before, n, i);
      StepGoesOn(before[|before| - 1], run[|run| - 1], i);
    }
  }

  /** Someone has found the mailbox exhausted, or has drained it. */
  ghost predicate Finished(s: System) {
    exists i :: i in s.tasks && (s.tasks[i].RecvClosed? || PastTake(s.tasks[i]))
  }

  lemma MoveKeepsFinished(s: System, i: nat, k: nat)
    requires ClosedFacts(s) && CanMove(s, i)
    requires k in s.tasks && (s.tasks[k].RecvClosed? || PastTake(s.tasks[k]))
    ensures Finished(Move(s, i)) && Move(s, i).accepted == s.accepted
  {
    var s' := Move(s, i);
    assert k in s'.tasks && (s'.tasks[k].RecvClosed? || PastTake(s'.tasks[k]));
  }

  lemma StepKeepsFinished(s: System, s': System)
    requires ClosedFacts(s) && Step(s, s') && Finished(s)
    ensures Finished(s') && s'.accepted == s.accepted
  {
    var k :| k in s.tasks && (s.tasks[k].RecvClosed? || PastTake(s.tasks[k]));
    if i :| CanMove(s, i) && s' == Move(s, i) {
      MoveKeepsFinished(s, i, k);
    } else {
      assert k in s'.tasks && s'.tasks[k] == s.tasks[k];
    }
  }

  /** After that the queue is empty for good and no later `send` is accepted. */
  lemma {:induction false} FinishedForGood(run: seq<System>, n: nat)
    requires IsRun(run) && n < |run| && Finished(run[n])
    ensures Finished(run[|run| - 1]) && run[|run| - 1].m.closed && run[|run| - 1].m.queue == []
    ensures run[|run| - 1].accepted == run[n].accepted
    ensures var s := run[|run| - 1]; forall i :: i in s.tasks && s.tasks[i].SendOk? ==> i in run[n].tasks && run[n].tasks[i].SendOk?
    decreases |run|
  {
    RunExtends(run, n);
    RunKeepsInv(run[..n + 1]);
    assert run[..n + 1][n] == run[n];
    RunKeepsInv(run);
    if n < |run| - 1 {
      var before := run[..|run| - 1];
      FinishedForGood(before, n);
      RunKeepsInv(before);
      StepKeepsFinished(before[|before| - 1], run[|run| - 1]);
    }
  }

  /**
   * Whoever sleeps on the current generation has nothing to do: a receiver faces an empty queue, a
   * sender a full one, and on a closed mailbox nobody sleeps unless a closer has yet to notify.
   */
  lemma NobodySleepsThrough(run: seq<System>, i: nat)
    requires IsRun(run) && i in run[|run| - 1].tasks
    ensures var s := run[|run| - 1];
      && (s.tasks[i] == RecvAsleep(s.m.notEmpty) ==>
            s.m.queue == [] && (s.m.closed ==> exists k :: k in s.tasks && OwesReceivers(s.tasks[k])))
      && (s.tasks[i] == SendAsleep(s.m.notFull) ==>
            if s.m.closed then exists k :: k in s.tasks && OwesSenders(s.tasks[k]) else |s.m.queue| == s.m.capacity)
  {
    RunKeepsInv(run);
  }

  /** No task can move any more. */
  ghost predicate Quiet(s: System) {
    forall i :: i in s.tasks ==> !CanMove(s, i)
  }

  /**
   * When nothing moves any more, a sleeping receiver faces an empty open mailbox and a sleeping
   * sender a full open one; with room for at least one item there are not both.
   */
  lemma QuietSleepersAreRight(run: seq<System>)
    requires IsRun(run) && Quiet(run[|run| - 1])
    ensures var s := run[|run| - 1];
      && (forall i :: i in s.tasks && s.tasks[i].RecvAsleep? ==> s.m.queue == [] && !s.m.closed)
      && (forall i :: i in s.tasks && s.tasks[i].SendAsleep? ==> |s.m.queue| == s.m.capacity && !s.m.closed)
      && (forall i, j :: i in s.tasks && j in s.tasks && s.tasks[i].RecvAsleep? && s.tasks[j].SendAsleep? ==> s.m.capacity == 0)
  {
    RunKeepsInv(run);
    var s := run[|run| - 1];
    assert !SendersOwed(s) && !ReceiversOwed(s) by {
      forall k | k in s.tasks
        ensures !OwesSenders(s.tasks[k])
      {
        assert !CanMove(s, k);
      }
    }
    forall i | i in s.tasks
      ensures s.tasks[i].RecvAsleep? ==> s.tasks[i] == RecvAsleep(s.m.notEmpty)
      ensures s.tasks[i].SendAsleep? ==> s.tasks[i] == SendAsleep(s.m.notFull)
    {
      assert !CanMove(s, i);
    }
  }
}
