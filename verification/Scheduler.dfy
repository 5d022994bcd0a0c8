/**
 * The scheduler's feedback bus and its projection (crates/persistent-entity/src/scheduler_event.rs).
 */
module Scheduler {
  import opened Entities

  const U64: int := 0x1_0000_0000_0000_0000
  const DEFAULT_REPLAY_BUFFER_CAPACITY: nat := 1024

  type Word = n: int | 0 <= n < U64

  /** 64-bit wrap-around. */
  function Wrap(n: nat): Word {
    n % U64
  }

  function Succ(w: Word): Word {
    Wrap(w as int + 1)
  }

  datatype SchedulerEvent =
    | SlotFreed
    | CommandArrived(entity: Triple)
    | CircuitBreakerExpired(entity: Triple)
    | ExecutionCompleted(entity: Triple, stateVersion: Word)
    | EntityStateUpdated(entity: Triple, stateVersion: Word)
    | RecoveryCompleted(entity: Triple, stateVersion: Word)

  datatype Item = Item(id: Word, event: SchedulerEvent)

  // ------------------------------------------------------------------------------------------
  // The bus
  // ------------------------------------------------------------------------------------------

  /** The bounded channel between sender and receiver. */
  class Channel {
    var queue: seq<Item>
    const capacity: nat
    var receiverGone: bool

    constructor (capacity: nat)
      ensures queue == [] && this.capacity == capacity && !receiverGone
    {
      this.capacity, queue, receiverGone := capacity, [], false;
    }
  }

  class SchedulerEventSender {
    const tx: Channel
    var sequenceCounter: Word

    constructor (tx: Channel)
      ensures this.tx == tx && sequenceCounter == 0
    {
      this.tx, sequenceCounter := tx, 0;
    }

    /** An id is spent whether or not the event gets in: a full channel drops the newest. */
    method Emit(event: SchedulerEvent) returns (accepted: bool)
      modifies this, tx
      ensures accepted <==> !tx.receiverGone && |old(tx.queue)| < tx.capacity
      ensures sequenceCounter == Succ(old(sequenceCounter)) && tx.receiverGone == old(tx.receiverGone)
      ensures tx.queue == old(tx.queue) + if accepted then [Item(old(sequenceCounter), event)] else []
    {
      var id := sequenceCounter;
      sequenceCounter := Succ(sequenceCounter);
      accepted := !tx.receiverGone && |tx.queue| < tx.capacity;
      if accepted {
        tx.queue := tx.queue + [Item(id, event)];
      }
    }
  }

  /** Takes whatever is buffered, in order. */
  method DrainAll(rx: Channel) returns (items: seq<Item>)
    modifies rx
    ensures items == old(rx.queue) && rx.queue == [] && rx.receiverGone == old(rx.receiverGone)
  {
    items := [];
    while rx.queue != []
      invariant items + rx.queue == old(rx.queue) && rx.receiverGone == old(rx.receiverGone)
      decreases |rx.queue|
    {
      items := items + [rx.queue[0]];
      rx.queue := rx.queue[1..];
    }
  }

  // ------------------------------------------------------------------------------------------
  // The projection, by what was consumed
  // ------------------------------------------------------------------------------------------

  function Ids(items: seq<Item>): seq<Word> {
    seq(|items|, i requires 0 <= i < |items| => items[i].id)
  }

  /** How often an id is not the successor of the one before. */
  function Gaps(ids: seq<Word>): nat {
    Breaks(Succ, ids)
  }

  function Breaks(succ: Word -> Word, ids: seq<Word>): nat {
    if |ids| < 2 then 0
    else Breaks(succ, ids[..|ids| - 1]) + if ids[|ids| - 1] != succ(ids[|ids| - 2]) then 1 else 0
  }

  function LastItems(items: seq<Item>): seq<Item> {
    if |items| <= DEFAULT_REPLAY_BUFFER_CAPACITY then items else items[|items| - DEFAULT_REPLAY_BUFFER_CAPACITY..]
  }

  datatype View = View(total: Word, last: Option<Word>, gaps: Word, replay: seq<Item>)

  /** The projection of all that was consumed, of which `recent` since the last clear. */
  function Summary(consumed: seq<Item>, recent: seq<Item>): View {
    View(Wrap(|consumed|),
         if consumed == [] then None else Some(consumed[|consumed| - 1].id),
         Wrap(Gaps(Ids(consumed))),
         LastItems(recent))
  }

  /** One event, without the total, which is added for a whole batch. */
  function Take(v: View, x: Item): View {
    v.(
      gaps := if v.last.Some? && x.id != Succ(v.last.value) then Succ(v.gaps) else v.gaps,
      last := Some(x.id),
      replay := (if |v.replay| >= DEFAULT_REPLAY_BUFFER_CAPACITY then v.replay[1..] else v.replay) + [x])
  }

  function TakeAll(v: View, items: seq<Item>): View {
    if items == [] then v else Take(TakeAll(v, items[..|items| - 1]), items[|items| - 1])
  }

  function Drained(v: View, items: seq<Item>): View {
    TakeAll(v.(total := Wrap(v.total + |items|)), items)
  }

  class SchedulerState {
    var totalEventsConsumed: Word
    var lastDrainCount: nat
    var lastSequenceId: Option<Word>
    var detectedGaps: Word
    var lastSuggestion: Option<Triple>
    var replayBuffer: seq<Item>

    ghost function Value(): View
      reads this
    {
      View(totalEventsConsumed, lastSequenceId, detectedGaps, replayBuffer)
    }

    constructor ()
      ensures Value() == Summary([], []) && lastDrainCount == 0 && lastSuggestion == None
    {
      totalEventsConsumed, lastDrainCount, lastSequenceId, detectedGaps, lastSuggestion, replayBuffer := 0, 0, None, 0, None, [];
    }

    method ApplyDrainedEvents(events: seq<Item>)
      modifies this
      ensures Value() == Drained(old(Value()), events)
      ensures lastDrainCount == |events| && lastSuggestion == old(lastSuggestion)
    {
      lastDrainCount := |events|;
      totalEventsConsumed := Wrap(totalEventsConsumed + Wrap(|events|));
      WrapAdds(old(totalEventsConsumed), |events|);
      ghost var start := Value();
      for i := 0 to |events|
        invariant Value() == TakeAll(start, events[..i])
        invariant lastDrainCount == |events| && lastSuggestion == old(lastSuggestion)
      {
        TakeOne(events[i]);
        assert events[..i + 1][..i] == events[..i];
      }
      assert events[..|events|] == events;
    }

    /** One event: a gap if its id does not follow, and a place in the bounded replay buffer. */
    method TakeOne(x: Item)
      modifies this`detectedGaps, this`lastSequenceId, this`replayBuffer
      ensures Value() == Take(old(Value()), x)
    {
      if lastSequenceId.Some? && x.id != Succ(lastSequenceId.value) {
        detectedGaps := Succ(detectedGaps);
      }
      lastSequenceId := Some(x.id);
      if |replayBuffer| >= DEFAULT_REPLAY_BUFFER_CAPACITY {
        replayBuffer := replayBuffer[1..];
      }
      replayBuffer := replayBuffer + [x];
    }

    method ClearReplayBuffer()
      modifies this`replayBuffer
      ensures Value() == old(Value()).(replay := [])
    {
      replayBuffer := [];
    }
  }

  /** The id after the largest is zero; every other is followed by the next number. */
  lemma SuccOfWord(w: Word)
    ensures Succ(w) as int == if w as int == 0xFFFF_FFFF_FFFF_FFFF then 0 else w as int + 1
  {
  }

  lemma WrapAdds(a: nat, b: nat)
    ensures Wrap(a + Wrap(b)) == Wrap(a + b) && Wrap(Wrap(a) + b) == Wrap(a + b)
  {
    var q, p := b / U64, a / U64;
    assert a + b == (a + b % U64) + q * U64;
    assert a + b == (a % U64 + b) + p * U64;
    WrapTimes(a + b % U64, q);
    WrapTimes(a % U64 + b, p);
  }

  lemma {:induction false} WrapTimes(n: nat, q: nat)
    ensures Wrap(n + q * U64) == Wrap(n)
  {
    if q > 0 {
      WrapTimes(n, q - 1);
      assert n + q * U64 == n + (q - 1) * U64 + U64;
    }
  }

  lemma TakeIsSummary(total: Word, consumed: seq<Item>, recent: seq<Item>, x: Item)
    ensures Take(Summary(consumed, recent).(total := total), x) == Summary(consumed + [x], recent + [x]).(total := total)
  {
    var more := consumed + [x];
    assert Ids(more)[..|consumed|] == Ids(consumed);
    WrapAdds(Gaps(Ids(consumed)), 1);
  }

  lemma {:induction false} TakeAllIsSummary(total: Word, consumed: seq<Item>, recent: seq<Item>, items: seq<Item>)
    ensures TakeAll(Summary(consumed, recent).(total := total), items) ==
      Summary(consumed + items, recent + items).(total := total)
  {
    if items == [] {
      assert consumed + items == consumed && recent + items == recent;
    } else {
      var before, x := items[..|items| - 1], items[|items| - 1];
      var c, r := consumed + before, recent + before;
      assert c + [x] == consumed + items && r + [x] == recent + items;
      TakeAllIsSummary(total, consumed, recent, before);
      assert TakeAll(Summary(consumed, recent).(total := total), items) == Take(Summary(c, r).(total := total), x);
      TakeIsSummary(total, c, r, x);
    }
  }

  /** A drain takes the projection of what was consumed to the projection of that and the batch. */
  lemma DrainedIsSummary(consumed: seq<Item>, recent: seq<Item>, items: seq<Item>)
    ensures Drained(Summary(consumed, recent), items) == Summary(consumed + items, recent + items)
  {
    var total := Wrap(Wrap(|consumed|) + |items|);
    assert total == Wrap(|consumed + items|) by { WrapAdds(|consumed|, |items|); }
    TakeAllIsSummary(total, consumed, recent, items);
  }

  // ------------------------------------------------------------------------------------------
  // Any run of emits, drains and clears
  // ------------------------------------------------------------------------------------------

  /**
   * An emit that drew `id` reaches the channel; a drain receives one item, while emits may go on; the
   * drain ends and is applied; the replay buffer is cleared; the receiver is dropped.
   */
  datatype Op = Emit(id: Word, event: SchedulerEvent) | Receive | Apply | Clear | Hang

  /**
   * The bus and the scheduler's state, with what happened: the emits in the order in which they
   * reached the channel and which of them got in, what was consumed, and what of that since the last
   * clear. `batch` is what the drain at work has received.
   */
  datatype System = System(
    capacity: nat, gone: bool, queue: seq<Item>, batch: seq<Item>, view: View,
    offered: seq<Item>, accepted: seq<bool>, consumed: seq<Item>, recent: seq<Item>)

  function Start(capacity: nat): System {
    System(capacity, false, [], [], Summary([], []), [], [], [], [])
  }

  function Step(s: System, op: Op): System {
    match op
    case Emit(id, event) =>
      var fits := !s.gone && |s.queue| < s.capacity;
      s.(offered := s.offered + [Item(id, event)], accepted := s.accepted + [fits],
         queue := if fits then s.queue + [Item(id, event)] else s.queue)
    case Receive => if s.queue == [] then s else s.(batch := s.batch + [s.queue[0]], queue := s.queue[1..])
    case Apply =>
      s.(batch := [], view := Drained(s.view, s.batch), consumed := s.consumed + s.batch, recent := s.recent + s.batch)
    case Clear => s.(view := s.view.(replay := []), recent := [])
    case Hang => s.(gone := true)
  }

  function Run(s: System, ops: seq<Op>): System {
    if ops == [] then s else Step(Run(s, ops[..|ops| - 1]), ops[|ops| - 1])
  }

  /** The emits that got in. */
  function Kept(offered: seq<Item>, accepted: seq<bool>): seq<Item>
    requires |offered| == |accepted|
  {
    if accepted == [] then []
    else
      var n := |accepted| - 1;
      Kept(offered[..n], accepted[..n]) + if accepted[n] then [offered[n]] else []
  }

  lemma KeptMore(offered: seq<Item>, accepted: seq<bool>, x: Item, fits: bool)
    requires |offered| == |accepted|
    ensures Kept(offered + [x], accepted + [fits]) == Kept(offered, accepted) + if fits then [x] else []
  {
    assert (offered + [x])[..|offered|] == offered && (accepted + [fits])[..|accepted|] == accepted;
  }

  ghost predicate Inv(s: System) {
    && s.view == Summary(s.consumed, s.recent)
    && |s.offered| == |s.accepted| && s.consumed + s.batch + s.queue == Kept(s.offered, s.accepted)
    && IsSuffix(s.recent, s.consumed) && |s.queue| <= s.capacity
  }

  predicate IsSuffix(a: seq<Item>, b: seq<Item>) {
    |a| <= |b| && a == b[|b| - |a|..]
  }

  lemma SuffixGrows(a: seq<Item>, b: seq<Item>, more: seq<Item>)
    requires IsSuffix(a, b)
    ensures IsSuffix(a + more, b + more)
  {
  }

  lemma EmitKeepsInv(s: System, x: Item)
    requires Inv(s)
    ensures Inv(Step(s, Emit(x.id, x.event)))
  {
    KeptMore(s.offered, s.accepted, x, !s.gone && |s.queue| < s.capacity);
    Regroup(s.consumed, s.batch, s.queue, [x]);
  }

  lemma Regroup(a: seq<Item>, b: seq<Item>, c: seq<Item>, d: seq<Item>)
    ensures a + b + (c + d) == a + b + c + d && a + (b + c) + d == a + b + (c + d)
  {
  }

  lemma ReceiveKeepsInv(s: System)
    requires Inv(s)
    ensures Inv(Step(s, Receive))
  {
    if s.queue != [] {
      Regroup(s.consumed, s.batch, [s.queue[0]], s.queue[1..]);
      assert [s.queue[0]] + s.queue[1..] == s.queue;
    }
  }

  lemma ApplyKeepsInv(s: System)
    requires Inv(s)
    ensures Inv(Step(s, Apply))
  {
    DrainedIsSummary(s.consumed, s.recent, s.batch);
    SuffixGrows(s.recent, s.consumed, s.batch);
    assert s.consumed + s.batch + [] == s.consumed + s.batch;
  }

  lemma StepKeepsInv(s: System, op: Op)
    requires Inv(s)
    ensures Inv(Step(s, op))
  {
    match op
    case Emit(id, event) => EmitKeepsInv(s, Item(id, event));
    case Receive => ReceiveKeepsInv(s);
    case Apply => ApplyKeepsInv(s);
    case Clear =>
    case Hang =>
  }

  lemma {:induction false} RunKeepsInv(s: System, ops: seq<Op>)
    requires Inv(s)
    ensures Inv(Run(s, ops))
  {
    if ops != [] {
      RunKeepsInv(s, ops[..|ops| - 1]);
      StepKeepsInv(Run(s, ops[..|ops| - 1]), ops[|ops| - 1]);
    }
  }

  lemma RunInv(capacity: nat, ops: seq<Op>)
    ensures Inv(Run(Start(capacity), ops))
  {
    RunKeepsInv(Start(capacity), ops);
  }

  // ------------------------------------------------------------------------------------------
  // The objects take these steps
  // ------------------------------------------------------------------------------------------

  ghost predicate Mirrors(bus: Channel, state: SchedulerState, s: System)
    reads bus, state
  {
    s.queue == bus.queue && s.capacity == bus.capacity && s.gone == bus.receiverGone && s.view == state.Value()
  }

  /** An emit nobody overtakes: the step with the id it drew, and the answer is whether that got in. */
  method EmitOne(sender: SchedulerEventSender, state: SchedulerState, event: SchedulerEvent, ghost s: System)
      returns (accepted: bool, ghost s': System)
    requires Mirrors(sender.tx, state, s)
    modifies sender, sender.tx
    ensures s' == Step(s, Emit(old(sender.sequenceCounter), event)) && Mirrors(sender.tx, state, s')
    ensures s'.accepted == s.accepted + [accepted]
  {
    s' := Step(s, Emit(sender.sequenceCounter, event));
    accepted := sender.Emit(event);
  }

  function Receives(n: nat): seq<Op> {
    seq(n, _ => Receive)
  }

  lemma {:induction false} ReceiveMany(s: System, n: nat)
    requires n <= |s.queue|
    ensures Run(s, Receives(n)) == s.(batch := s.batch + s.queue[..n], queue := s.queue[n..])
  {
    if n > 0 {
      ReceiveMany(s, n - 1);
      assert Receives(n)[..n - 1] == Receives(n - 1);
      assert s.queue[..n] == s.queue[..n - 1] + [s.queue[n - 1]];
    }
  }

  /** A drain and its application, with no emit in between: as many receives as there were items, and the end of the drain. */
  method DrainOnce(rx: Channel, state: SchedulerState, ghost s: System) returns (ghost s': System)
    requires Mirrors(rx, state, s) && s.batch == []
    modifies rx, state
    ensures s' == Run(s, Receives(|s.queue|) + [Apply]) && Mirrors(rx, state, s')
    ensures s'.consumed == s.consumed + s.queue && s'.queue == [] && state.lastDrainCount == |s.queue|
  {
    ghost var received := Run(s, Receives(|s.queue|));
    ReceiveMany(s, |s.queue|);
    RunMore(s, Receives(|s.queue|), Apply);
    assert s.queue[..|s.queue|] == s.queue && [] + s.queue == s.queue;
    s' := Step(received, Apply);
    var items := DrainAll(rx);
    state.ApplyDrainedEvents(items);
  }

  // ------------------------------------------------------------------------------------------
  // Batching does not matter
  // ------------------------------------------------------------------------------------------

  function DrainEach(v: View, batches: seq<seq<Item>>): View {
    if batches == [] then v else Drained(DrainEach(v, batches[..|batches| - 1]), batches[|batches| - 1])
  }

  function Flatten(batches: seq<seq<Item>>): seq<Item> {
    if batches == [] then [] else Flatten(batches[..|batches| - 1]) + batches[|batches| - 1]
  }

  lemma {:induction false} DrainEachIsSummary(consumed: seq<Item>, recent: seq<Item>, batches: seq<seq<Item>>)
    ensures DrainEach(Summary(consumed, recent), batches) == Summary(consumed + Flatten(batches), recent + Flatten(batches))
  {
    if batches == [] {
      assert consumed + [] == consumed && recent + [] == recent;
    } else {
      var before, batch := batches[..|batches| - 1], batches[|batches| - 1];
      var c, r := consumed + Flatten(before), recent + Flatten(before);
      assert c + batch == consumed + Flatten(batches) && r + batch == recent + Flatten(batches);
      DrainEachIsSummary(consumed, recent, before);
      DrainedIsSummary(c, r, batch);
    }
  }

  /** However the events are split into drains, the projection is the same. */
  lemma BatchingIndependence(consumed: seq<Item>, recent: seq<Item>, a: seq<seq<Item>>, b: seq<seq<Item>>)
    requires Flatten(a) == Flatten(b)
    ensures DrainEach(Summary(consumed, recent), a) == DrainEach(Summary(consumed, recent), b)
  {
    DrainEachIsSummary(consumed, recent, a);
    DrainEachIsSummary(consumed, recent, b);
  }

  /**
   * In every run, emits in any order and going on during drains: what was consumed is the first of
   * what got in, in that order, and the state is its projection.
   */
  lemma ProjectionOfRun(capacity: nat, ops: seq<Op>)
    ensures
      var s := Run(Start(capacity), ops);
      && s.view == Summary(s.consumed, s.recent)
      && |s.offered| == |s.accepted| && s.consumed <= Kept(s.offered, s.accepted)
      && s.consumed + s.batch + s.queue == Kept(s.offered, s.accepted) && |s.queue| <= s.capacity
  {
    RunInv(capacity, ops);
    ConsumedFirst(Run(Start(capacity), ops));
  }

  lemma ConsumedFirst(s: System)
    requires Inv(s)
    ensures s.consumed <= Kept(s.offered, s.accepted)
  {
    PrefixOfThree(s.consumed, s.batch, s.queue);
  }

  lemma PrefixOfThree(a: seq<Item>, b: seq<Item>, c: seq<Item>)
    ensures a <= a + b + c
  {
  }

  /** The replay buffer: the last events since the last clear, as many as there are and no more than 1024. */
  lemma ReplayHoldsTheLast(capacity: nat, ops: seq<Op>)
    ensures
      var s := Run(Start(capacity), ops);
      && |s.view.replay| == (if |s.recent| < 1024 then |s.recent| else 1024)
      && IsSuffix(s.view.replay, s.consumed)
  {
    RunInv(capacity, ops);
    LastOfSuffix(Run(Start(capacity), ops).recent, Run(Start(capacity), ops).consumed);
  }

  lemma LastOfSuffix(a: seq<Item>, b: seq<Item>)
    requires IsSuffix(a, b)
    ensures IsSuffix(LastItems(a), b)
  {
  }

  // ------------------------------------------------------------------------------------------
  // What a gap means
  // ------------------------------------------------------------------------------------------

  /** The labels of the emits that got in, when the `n`-th emit is labelled `id(n)`. */
  function Labels(id: nat -> Word, accepted: seq<bool>): seq<Word> {
    if accepted == [] then []
    else
      var n := |accepted| - 1;
      Labels(id, accepted[..n]) + if accepted[n] then [id(n)] else []
  }

  /** Emits reached the channel in the order in which they drew their ids, and none stayed on the way. */
  predicate Consecutive(offered: seq<Item>) {
    ConsecutiveTo(offered, |offered|)
  }

  /** The same of the first `n` emits. */
  predicate ConsecutiveTo(offered: seq<Item>, n: nat) {
    forall i :: 0 < i < n && i < |offered| ==> offered[i].id == Succ(offered[i - 1].id)
  }

  lemma {:induction false} KeptLabels(id: nat -> Word, offered: seq<Item>, accepted: seq<bool>)
    requires |offered| == |accepted| && forall i :: 0 <= i < |offered| ==> offered[i].id == id(i)
    ensures Ids(Kept(offered, accepted)) == Labels(id, accepted)
  {
    if accepted != [] {
      KeptLabels(id, offered[..|offered| - 1], accepted[..|accepted| - 1]);
    }
  }

  function Count(accepted: seq<bool>): nat {
    if accepted == [] then 0
    else Count(accepted[..|accepted| - 1]) + if accepted[|accepted| - 1] then 1 else 0
  }

  lemma {:induction false} KeptCount(offered: seq<Item>, accepted: seq<bool>)
    requires |offered| == |accepted|
    ensures |Kept(offered, accepted)| == Count(accepted)
  {
    if accepted != [] {
      KeptCount(offered[..|offered| - 1], accepted[..|accepted| - 1]);
    }
  }

  /** How many emits there were when the `k`-th of those that got in did. */
  function Seen(accepted: seq<bool>, k: nat): (n: nat)
    ensures n <= |accepted|
  {
    if accepted == [] || Count(accepted[..|accepted| - 1]) < k then |accepted|
    else Seen(accepted[..|accepted| - 1], k)
  }

  lemma {:induction false} SeenKept(offered: seq<Item>, accepted: seq<bool>, k: nat)
    requires |offered| == |accepted| && k <= Count(accepted)
    ensures var n := Seen(accepted, k);
      k <= |Kept(offered, accepted)| && Kept(offered[..n], accepted[..n]) == Kept(offered, accepted)[..k]
  {
    KeptCount(offered, accepted);
    var kept := Kept(offered, accepted);
    if accepted == [] || Count(accepted[..|accepted| - 1]) < k {
      assert accepted[..|accepted|] == accepted && offered[..|offered|] == offered && kept[..|kept|] == kept;
    } else {
      var o, a := offered[..|offered| - 1], accepted[..|accepted| - 1];
      SeenKept(o, a, k);
      var n := Seen(a, k);
      assert o[..n] == offered[..n] && a[..n] == accepted[..n];
      assert kept[..k] == Kept(o, a)[..k];
    }
  }

  /** `j` got in, and before it, since `k`, nothing did. */
  predicate Next(accepted: seq<bool>, k: nat, j: nat) {
    k < j < |accepted| && accepted[k] && accepted[j] && forall i :: k < i < j ==> !accepted[i]
  }

  /** The emit `j` ends a run of drops that began after an accepted emit and has a length that counts. */
  ghost predicate EndsRun(counts: nat -> bool, accepted: seq<bool>, j: nat) {
    exists k: nat :: Next(accepted, k, j) && counts(j - k - 1)
  }

  /** How many of the first `n` emits do. */
  ghost function RunEnds(counts: nat -> bool, accepted: seq<bool>, n: nat): nat {
    if n == 0 then 0 else RunEnds(counts, accepted, n - 1) + if EndsRun(counts, accepted, n - 1) then 1 else 0
  }

  /** A run of drops shows in the ids unless its length is a multiple of 2^64. */
  function Shows(): nat -> bool {
    (drops: nat) => drops % U64 != 0
  }

  function LastAccepted(accepted: seq<bool>): (k: int)
    ensures -1 <= k < |accepted|
    ensures k >= 0 ==> accepted[k]
    ensures forall i :: k < i < |accepted| ==> !accepted[i]
  {
    if accepted == [] then -1
    else if accepted[|accepted| - 1] then |accepted| - 1
    else LastAccepted(accepted[..|accepted| - 1])
  }

  lemma {:induction false} LastLabel(id: nat -> Word, accepted: seq<bool>)
    ensures
      var ids, k := Labels(id, accepted), LastAccepted(accepted);
      (ids == [] <==> k == -1) && (k >= 0 ==> ids[|ids| - 1] == id(k))
  {
    if accepted != [] && !accepted[|accepted| - 1] {
      LastLabel(id, accepted[..|accepted| - 1]);
    }
  }

  lemma EndsRunBefore(counts: nat -> bool, accepted: seq<bool>, fits: bool, j: nat)
    requires j < |accepted|
    ensures EndsRun(counts, accepted + [fits], j) <==> EndsRun(counts, accepted, j)
  {
    var more := accepted + [fits];
    if k: nat :| Next(accepted, k, j) && counts(j - k - 1) {
      assert Next(more, k, j);
    }
    if k: nat :| Next(more, k, j) && counts(j - k - 1) {
      forall i | k < i < j ensures !accepted[i] { assert !more[i]; }
      assert Next(accepted, k, j);
    }
  }

  lemma NextOfLast(accepted: seq<bool>, fits: bool, k: nat)
    ensures Next(accepted + [fits], k, |accepted|) <==> fits && k == LastAccepted(accepted)
  {
    var more, last := accepted + [fits], LastAccepted(accepted);
    if Next(more, k, |accepted|) {
      assert accepted[k] == more[k];
      assert last >= 0 ==> more[last] == accepted[last];
    }
  }

  lemma EndsRunLast(counts: nat -> bool, accepted: seq<bool>, fits: bool)
    ensures EndsRun(counts, accepted + [fits], |accepted|) <==>
      fits && LastAccepted(accepted) >= 0 && counts(|accepted| - LastAccepted(accepted) - 1)
  {
    var last := LastAccepted(accepted);
    if last >= 0 { NextOfLast(accepted, fits, last); }
    if k: nat :| Next(accepted + [fits], k, |accepted|) && counts(|accepted| - k - 1) {
      NextOfLast(accepted, fits, k);
    }
  }

  lemma {:induction false} RunEndsBefore(counts: nat -> bool, accepted: seq<bool>, fits: bool, n: nat)
    requires n <= |accepted|
    ensures RunEnds(counts, accepted + [fits], n) == RunEnds(counts, accepted, n)
  {
    if n > 0 {
      RunEndsBefore(counts, accepted, fits, n - 1);
      EndsRunBefore(counts, accepted, fits, n - 1);
    }
  }

  /** Neighbours in id are apart by the drops between them, modulo 2^64. */
  lemma SuccessorIff(k: nat, n: nat)
    requires k < n
    ensures Wrap(n) != Succ(Wrap(k)) <==> Shows()(n - k - 1)
  {
    WrapAdds(k, 1);
    var d := n - k - 1;
    assert n == k + 1 + d;
    assert Wrap(k + 1 + d) == Wrap(Wrap(k + 1) + Wrap(d)) by {
      WrapAdds(k + 1, d);
      WrapAdds(Wrap(k + 1), d);
    }
  }

  lemma BreaksMore(succ: Word -> Word, ids: seq<Word>, id: Word)
    ensures Breaks(succ, ids + [id]) == Breaks(succ, ids) + if ids != [] && id != succ(ids[|ids| - 1]) then 1 else 0
  {
    assert (ids + [id])[..|ids|] == ids;
  }

  lemma LabelsMore(id: nat -> Word, accepted: seq<bool>, fits: bool)
    ensures Labels(id, accepted + [fits]) == Labels(id, accepted) + if fits then [id(|accepted|)] else []
  {
    assert (accepted + [fits])[..|accepted|] == accepted;
  }

  /** Two labels are neighbours unless the run of drops between them counts. */
  ghost predicate Tells(succ: Word -> Word, id: nat -> Word, counts: nat -> bool) {
    forall k: nat, n: nat :: k < n ==> (id(n) != succ(id(k)) <==> counts(n - k - 1))
  }

  lemma BreaksOfMore(succ: Word -> Word, id: nat -> Word, counts: nat -> bool, before: seq<bool>, fits: bool)
    requires Tells(succ, id, counts)
    ensures Breaks(succ, Labels(id, before + [fits])) == Breaks(succ, Labels(id, before)) +
      if fits && LastAccepted(before) >= 0 && counts(|before| - LastAccepted(before) - 1) then 1 else 0
  {
    LabelsMore(id, before, fits);
    LastLabel(id, before);
    BreaksAfter(succ, id, counts, Labels(id, before), LastAccepted(before), |before|, fits);
  }

  lemma BreaksAfter(succ: Word -> Word, id: nat -> Word, counts: nat -> bool, ids: seq<Word>, last: int, n: nat, fits: bool)
    requires Tells(succ, id, counts) && -1 <= last < n && (ids == [] <==> last == -1) && (last >= 0 ==> ids[|ids| - 1] == id(last))
    ensures Breaks(succ, ids + if fits then [id(n)] else []) == Breaks(succ, ids) + if fits && last >= 0 && counts(n - last - 1) then 1 else 0
  {
    if fits {
      BreaksMore(succ, ids, id(n));
    } else {
      assert ids + [] == ids;
    }
  }

  lemma RunEndsMore(counts: nat -> bool, before: seq<bool>, fits: bool)
    ensures RunEnds(counts, before + [fits], |before| + 1) == RunEnds(counts, before, |before|) +
      if fits && LastAccepted(before) >= 0 && counts(|before| - LastAccepted(before) - 1) then 1 else 0
  {
    RunEndsBefore(counts, before, fits, |before|);
    EndsRunLast(counts, before, fits);
  }

  lemma {:induction false} BreaksAreRuns(succ: Word -> Word, id: nat -> Word, counts: nat -> bool, accepted: seq<bool>)
    requires Tells(succ, id, counts)
    ensures Breaks(succ, Labels(id, accepted)) == RunEnds(counts, accepted, |accepted|)
  {
    if accepted != [] {
      var before, fits := accepted[..|accepted| - 1], accepted[|accepted| - 1];
      assert accepted == before + [fits];
      BreaksAreRuns(succ, id, counts, before);
      RunEndsMore(counts, before, fits);
      BreaksOfMore(succ, id, counts, before, fits);
    }
  }

  // ------------------------------------------------------------------------------------------
  // Exactly when the gaps are the runs of drops
  // ------------------------------------------------------------------------------------------

  /** The ids of consecutive emits, from the first. */
  function From(start: Word): nat -> Word {
    (n: nat) => Wrap(start as int + n)
  }

  lemma {:induction false} ConsecutiveIds(offered: seq<Item>, i: nat)
    requires Consecutive(offered) && i < |offered|
    ensures offered[i].id == From(offered[0].id)(i)
  {
    var start: int := offered[0].id;
    if i == 0 {
      assert Wrap(start) == start;
    } else {
      ConsecutiveIds(offered, i - 1);
      WrapAdds(start + i - 1, 1);
      assert offered[i].id == Wrap(start + i - 1 + 1);
    }
  }

  lemma FromTells(start: Word)
    ensures Tells(Succ, From(start), Shows())
  {
    forall k: nat, n: nat | k < n
      ensures From(start)(n) != Succ(From(start)(k)) <==> Shows()(n - k - 1)
    {
      SuccessorIff(start as int + k, start as int + n);
    }
  }

  /** Gap count and drops agree, when these of the emits got in. */
  ghost predicate GapsAgree(offered: seq<Item>, accepted: seq<bool>)
    requires |offered| == |accepted|
  {
    Gaps(Ids(Kept(offered, accepted))) == RunEnds(Shows(), accepted, |accepted|)
  }

  /** The gaps in consecutive ids are the runs of drops between accepted emits. */
  lemma GapsAreRuns(offered: seq<Item>, accepted: seq<bool>)
    requires |offered| == |accepted| && Consecutive(offered)
    ensures GapsAgree(offered, accepted)
  {
    var id := From(if offered == [] then 0 else offered[0].id);
    forall i | 0 <= i < |offered| ensures offered[i].id == id(i) {
      ConsecutiveIds(offered, i);
    }
    KeptLabels(id, offered, accepted);
    FromTells(if offered == [] then 0 else offered[0].id);
    BreaksAreRuns(Succ, id, Shows(), accepted);
  }

  function AllIn(n: nat): seq<bool> {
    seq(n, _ => true)
  }

  lemma {:induction false} AllKept(offered: seq<Item>)
    ensures Kept(offered, AllIn(|offered|)) == offered
  {
    if offered != [] {
      var n := |offered| - 1;
      AllKept(offered[..n]);
      assert AllIn(|offered|)[..n] == AllIn(n);
      assert offered == offered[..n] + [offered[n]];
    }
  }

  lemma {:induction false} NoRunEnds(n: nat, k: nat)
    requires k <= n
    ensures RunEnds(Shows(), AllIn(n), k) == 0
  {
    if k > 0 {
      NoRunEnds(n, k - 1);
      NoRunEndsAt(n, k - 1);
    }
  }

  lemma NoRunEndsAt(n: nat, j: nat)
    ensures !EndsRun(Shows(), AllIn(n), j)
  {
    forall k: nat | Next(AllIn(n), k, j)
      ensures !Shows()(j - k - 1)
    {
      assert k + 1 < j ==> AllIn(n)[k + 1];
    }
  }

  lemma {:induction false} NoBreaksMeansNeighbours(ids: seq<Word>, i: nat)
    requires Breaks(Succ, ids) == 0 && 0 < i < |ids|
    ensures ids[i] == Succ(ids[i - 1])
    decreases |ids|
  {
    if i < |ids| - 1 { NoBreaksMeansNeighbours(ids[..|ids| - 1], i); }
  }

  /**
   * Whatever is dropped, the gap count tells the runs of drops: exactly when the emits reach the
   * channel in the order of their ids, one after the other.
   */
  lemma GapsAgreeIff(offered: seq<Item>)
    ensures Consecutive(offered) <==> forall accepted :: |accepted| == |offered| ==> GapsAgree(offered, accepted)
  {
    if Consecutive(offered) {
      forall accepted | |accepted| == |offered| ensures GapsAgree(offered, accepted) {
        GapsAreRuns(offered, accepted);
      }
    }
    if forall accepted :: |accepted| == |offered| ==> GapsAgree(offered, accepted) {
      assert GapsAgree(offered, AllIn(|offered|));
      AllKept(offered);
      NoRunEnds(|offered|, |offered|);
      forall i | 0 < i < |offered| ensures offered[i].id == Succ(offered[i - 1].id) {
        NoBreaksMeansNeighbours(Ids(offered), i);
      }
    }
  }

  /**
   * In every run, when the emits up to the last consumed one reached the channel in the order of their
   * ids, the gap count is the number of runs of drops, of a length that is not a multiple of 2^64, that
   * lie between two consumed events.
   */
  lemma GapCountOfRun(capacity: nat, ops: seq<Op>)
    requires var s := Run(Start(capacity), ops); ConsecutiveTo(s.offered, Seen(s.accepted, |s.consumed|))
    ensures
      var s := Run(Start(capacity), ops);
      var n := Seen(s.accepted, |s.consumed|);
      s.view.gaps == Wrap(RunEnds(Shows(), s.accepted[..n], n))
  {
    var s := Run(Start(capacity), ops);
    var n := Seen(s.accepted, |s.consumed|);
    ProjectionOfRun(capacity, ops);
    KeptCount(s.offered, s.accepted);
    SeenKept(s.offered, s.accepted, |s.consumed|);
    assert s.consumed == Kept(s.offered, s.accepted)[..|s.consumed|];
    GapsAreRuns(s.offered[..n], s.accepted[..n]);
  }

  lemma RunMore(s: System, ops: seq<Op>, op: Op)
    ensures Run(s, ops + [op]) == Step(Run(s, ops), op)
  {
    assert (ops + [op])[..|ops|] == ops;
  }

  lemma TwoEmits(s: System, a: Item, b: Item)
    requires s.queue == [] && s.capacity >= 2 && !s.gone
    ensures Run(s, [Emit(a.id, a.event)] + [Emit(b.id, b.event)]) ==
      s.(queue := [a, b], offered := s.offered + [a] + [b], accepted := s.accepted + [true] + [true])
  {
    RunMore(s, [], Emit(a.id, a.event));
    assert [] + [Emit(a.id, a.event)] == [Emit(a.id, a.event)];
    RunMore(s, [Emit(a.id, a.event)], Emit(b.id, b.event));
  }

  lemma TwoReceives(s: System, a: Item, b: Item)
    requires s.queue == [a, b] && s.batch == []
    ensures Step(Step(s, Receive), Receive) == s.(queue := [], batch := [a, b])
  {
  }

  lemma ConsumedTwo(s: System, a: Item, b: Item)
    requires s.batch == [a, b] && s.consumed == [] && s.recent == [] && s.view == Summary([], [])
    ensures Step(s, Apply).consumed == [a, b] && Step(s, Apply).view == Summary([a, b], [a, b])
  {
    DrainedIsSummary([], [], [a, b]);
    assert [] + [a, b] == [a, b];
  }

  /** Two emits that swap on their way to the channel show a gap, although nothing is dropped. */
  lemma SwappedEmitsShowAGap(capacity: nat, a: Item, b: Item) returns (ops: seq<Op>)
    requires capacity >= 2 && a.id == 1 && b.id == 0
    ensures var s := Run(Start(capacity), ops);
      s.offered == s.consumed == [a, b] && s.accepted == [true, true] && s.view.gaps == 1
  {
    var s, emits := Start(capacity), [Emit(a.id, a.event)] + [Emit(b.id, b.event)];
    var full := Run(s, emits);
    assert full.offered == [a, b] && full.accepted == [true, true] && full.queue == [a, b] && full.batch == []
        && full.consumed == [] && full.recent == [] && full.view == Summary([], []) by {
      TwoEmits(s, a, b);
    }
    ops := emits + [Receive] + [Receive] + [Apply];
    DrainOfTwo(s, emits, a, b);
    SwappedSummary(a, b);
  }

  lemma DrainOfTwo(s: System, ops: seq<Op>, a: Item, b: Item)
    requires var full := Run(s, ops);
      full.queue == [a, b] && full.batch == [] && full.consumed == [] && full.recent == [] && full.view == Summary([], [])
    ensures var full, end := Run(s, ops), Run(s, ops + [Receive] + [Receive] + [Apply]);
      end.offered == full.offered && end.accepted == full.accepted && end.consumed == [a, b] && end.view == Summary([a, b], [a, b])
  {
    var full := Run(s, ops);
    RunMore(s, ops, Receive);
    RunMore(s, ops + [Receive], Receive);
    RunMore(s, ops + [Receive] + [Receive], Apply);
    TwoReceives(full, a, b);
    ConsumedTwo(full.(queue := [], batch := [a, b]), a, b);
  }

  lemma SwappedSummary(a: Item, b: Item)
    requires a.id == 1 && b.id == 0
    ensures Summary([a, b], [a, b]).gaps == 1
  {
    TwoIds(1, 0);
    assert Ids([a, b]) == [1, 0];
  }

  lemma TwoIds(a: Word, b: Word)
    ensures Gaps([a, b]) == if b != Succ(a) then 1 else 0
  {
    BreaksMore(Succ, [a], b);
    assert [a] + [b] == [a, b];
  }

  /** With at most 2^64 emits every run of drops between two consumed events counts. */
  lemma EveryRunCounts(accepted: seq<bool>, j: nat)
    requires |accepted| <= U64 && j < |accepted|
    ensures EndsRun(Shows(), accepted, j) <==> j > 0 && accepted[j] && !accepted[j - 1] && LastAccepted(accepted[..j]) >= 0
  {
    var last := LastAccepted(accepted[..j]);
    if last >= 0 && accepted[j] {
      assert forall i :: last < i < j ==> !accepted[..j][i];
      assert Next(accepted, last, j);
    }
    if k: nat :| Next(accepted, k, j) && Shows()(j - k - 1) {
      assert accepted[..j][k];
      assert k + 1 < j;
    }
  }
}
