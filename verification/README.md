# Verification of the entity runtime, the crate-graph checks and three algebraic cores

This project models the parts of the repository whose correctness is hard to see from one function at
a time, and proves what they promise.

**The event-sourced entity runtime** (`crates/persistent-entity`). An entity is an actor task with a
bounded mailbox, a routing entry stamped with an epoch, an event store with staged units of work and
operation receipts, and a snapshot store. It is modelled twice:

* as objects: `BoundedMailbox`, `InMemoryEventStore`, `StagingUnitOfWork`, `InMemorySnapshotStore`,
  `PersistenceFacade`, `EntityRegistry`, `TeardownGuard`, `LifecycleStateMachine` and `EntityActor`,
  whose methods are proved against functions of the old state;
* as step systems whose steps are what runs between two awaits or under one lock, with "the task dies
  here" possible before every step. `ActorMachine` is one activation, `Cell` one entity through any
  number of activations, `Runtime` all entities over one registry, one event store and one snapshot
  store.

The two are tied together. Everything `EntityActor` does, from recovery to passivation, and then the
guard's teardown, is proved to be a sequence of steps of `ActorMachine` over the entity's view of the
real stores (`Actor.EntityActor.Run`, `Tasks.TearDown`); opening a reference and sending a command are
proved to be steps of the system (`Tasks.OpenRef`, `Tasks.Spawn`, `Tasks.Deliver`); and every run of the whole system
is proved to be, for each entity, a run of `Cell` (`Runtime.RunProjects`). What a command, a queue of
commands and a whole activation come to when nobody interferes is given as a function
(`Commands.Executed`, `Serve`, `Lifetime`); the actor's methods are proved to compute it, and retries,
failures and re-activations are proved about it.

**The crate-graph checks** (`xtask`). Tarjan's algorithm, as the recursive, stateful code it is, is
proved to report exactly the strongly connected components with two or more members; and a clean
layer check is proved to leave only cycles inside one of four layers.

**Three smaller cores**: the W3C `traceparent` header (`crates/domain/src/tracer.rs`), effect
composition and interpretation (`crates/domain/src/effect.rs`, `crates/runtime/src/interpreter.rs`),
and the scheduler's feedback projection (`crates/persistent-entity/src/scheduler_event.rs`).

## Hypotheses

The command handler, the snapshot strategy, the event publisher and the effect acceptor may answer
anything, and may differ from one activation to the next. The theorems about the runtime come in four
layers. What a layer asks, it asks of the one entity a theorem speaks of; the other entities of the
deployment may have any tenant, any id and any application.

* Routing, lifecycle and callers (`CellTheorems.OneWriter` to `FailedForGood`, `CellCallers`), and that a
  stream holds what its entity's executions wrote (`RuntimeTheorems.EveryStreamIsItsLog`): nothing.
* Operations and receipts (`CellKeys`: at most once, retries, durability): the entity's tenant is not
  blank, or is empty, in which case the store refuses everything. Its snapshot may hold anything, and may
  be overwritten by other entities. `EventStore.RetryChangesNothingIff` shows that this is the exact
  condition.
* Versions and slices (`CellVersions`): its tenant is not blank, no other entity has its `type-id` join
  (`Runtime.Alone`), and a snapshot it has at the start stands at the version its stream starts from.
  `Runtime.SnapshotsIsolatedIffIdsDiffer` and `Runtime.JoinsAlikeIff` say exactly when joins collide and
  what follows.
* That its state is the fold of the stream (`CellFold`): also that all its activations bring the same
  application (`Runtime.Steady`), that `apply_events` on a concatenation is `apply_events` in two goes
  (`Entities.Lawful`), that a serialized state deserializes to itself (`Entities.RoundTrips`), and that
  a snapshot at the start holds the state it starts from.

The event store starts empty; it may have any version offset, also a negative one.

## Where the code falls short of its own words

* A unit of work does not check versions again when it commits. Two units staged on one stream at one
  version both commit (`EventStore.StaleUnitIsNotRefused`); a unit lands where it was announced if and
  only if the stream has not grown since (`EventStore.UnitLandsWhereAnnounced`). That the actor never
  meets this is a theorem about routing (`CellTheorems.NoConflict`), not about the store.
* `close_and_drain` is documented to mark the mailbox closed under the queue's lock; the code stores the
  flag before taking it. The promised hand-over, each accepted item to exactly one taker, holds all the
  same (`Mailbox.ExactlyOnce`, `Mailbox.FinishedForGood`).
* Receipts are filed under `TenantId::new(..).ok()` and looked up under the tenant as given: for a blank
  tenant that is not empty they are never found, and a retry of an operation commits it again
  (`EventStore.BlankTenantCommitsTwice`). `RuntimeConfig::validate` refuses such a tenant and
  single-tenant mode uses "default" (crates/persistent-entity/src/runtime.rs:71-76, 258-264), but
  `TokioEntityRef::new` accepts any.
* Recovery counts a negative version offset as zero and `append` does not: the actor's version is the
  store's exactly when the offset is not negative (`CellTheorems.NoConflict`,
  `RuntimeTheorems.EveryActiveIsExpected`). With a negative one every append of events is refused.
* A snapshot that does not deserialize gives the initial state at the snapshot's version: the covered
  events are missing from the state (`Recovery.UndecodableSnapshotLosesEvents`), unless there are none.
* The snapshot key ignores the tenant and does not separate type from id
  (`Runtime.JoinsAlikeIff`, `Runtime.SharedSnapshotMisleads`).
* `u8::from_str_radix` takes a leading plus sign, so `parse_traceparent` accepts headers that version 00
  of the format forbids (`TraceContexts.PlusIsTakenForZero`); and a slice inside a multi-byte character
  panics (`TraceContexts.ParsePanicsIff`), as with a euro sign at the start of the trace id
  (`TraceContexts.EuroSignPanics`).
* A run of exactly a multiple of 2^64 dropped scheduler events leaves no gap in the ids
  (`Scheduler.GapsAreRuns`), and two emits that swap between drawing their ids and reaching the channel
  show one although nothing is dropped (`Scheduler.SwappedEmitsShowAGap`). The gap count tells the runs of
  drops, whatever is dropped, exactly when emits reach the channel in the order of their ids
  (`Scheduler.GapsAgreeIff`).

## Model

| member | source | states |
|---|---|---|
| `Cycles.Tarjan.StrongConnect` | xtask/src/cycles.rs:53-91 | One call, from any well-formed search state: every open call's bookkeeping is restored, all that `v` reaches is visited, settled nodes stay closed under dependencies, and every list put out is a strongly connected component; it terminates on every finite graph |
| `Cycles.Tarjan.ScanDeps` | xtask/src/cycles.rs:60-74 | The dependency loop: after it `lowlink[v]` bounds every edge that leaves the part of the stack above `v`, and is witnessed by a node `v` reaches |
| `Cycles.Tarjan.PopComponent` | xtask/src/cycles.rs:76-90 | The pop loop takes exactly the stack from `v` upwards, without repetition, and leaves the rest as it was |
| `Components.TopIsComponent` | xtask/src/cycles.rs:76-90 | When no edge leaves the settled nodes and the stack from `v` upwards (which is what `lowlink[v] == indices[v]` means, `Components.TopIsClosed`), that part of the stack is a strongly connected component: exactly the nodes that `v` reaches and that reach `v` |
| `CycleReport.FindCycles` | xtask/src/cycles.rs:10-28 | The result is a report: ascending lists, ascending, each a strongly connected component of at least two names, and every such component is there; a dependency that is not a key is a leaf |
| `CycleReport.SharedListIffMutual` | xtask/src/cycles.rs:10-28 | Two distinct names share a reported list if and only if each reaches the other |
| `CycleReport.ListsDisjoint` | xtask/src/cycles.rs:10-28 | No name is in two reported lists |
| `CycleReport.ReportDeterministic` | xtask/src/cycles.rs:10-28 | The report depends on the graph alone, not on the order in which keys or dependencies are visited |
| `CycleReport.FirstMembersAscend` | xtask/src/cycles.rs:6-28 | The lists stand in the order of their first members |
| `Orders.StringLessIff` | xtask/src/cycles.rs:21-24 | Ascending is by code point: a proper prefix comes first, otherwise the first difference decides |
| `Orders.NamesLessIff` | xtask/src/cycles.rs:26 | Lists of names likewise, by the first name in which they differ |
| `Layers.CheckDirection` | xtask/src/layers.rs:97-121 | Reports, in the order of keys and dependencies, each edge between mapped crates that the design does not list (`Layers.MayDepend`, an explicit set of pairs, with tooling apart) |
| `Layers.MatrixIsDesign` | xtask/src/layers.rs:14-95 | The code's table permits exactly the listed pairs of layers, anything from tooling and nothing from an unknown layer; the known layers are those that may depend on domain |
| `Layers.DirectionClean` | xtask/src/layers.rs:97-121 | Nothing reported: every edge between mapped crates is permitted by the matrix |
| `Layers.DirectionExact` | xtask/src/layers.rs:97-121 | The report holds exactly the edges of the graph between mapped crates that the matrix forbids, with their layers |
| `Layers.CheckCompleteness` | xtask/src/layers.rs:125-145 | Reports, in order, exactly the crates without an entry, the entries without a crate and the unknown layers, so nothing if and only if map and crates name the same crates and every layer is known |
| `Layers.CyclesStayInOneLayer` | xtask/src/layers.rs:74-145 | With completeness and direction clean on a closed graph, each reported cycle lies in a single layer, and that is domain, foundation, infrastructure or tooling |
| `Layers.LayerHoldsCycle` | xtask/src/layers.rs:74-145 | In each of those four layers a two-crate cycle passes both layer checks, so that only the cycle report shows it |
| `Mailbox.BoundedMailbox.SendAttempt` | crates/persistent-entity/src/mailbox.rs:121-140 | One pass of `send`: refused when closed, queued with a wakeup for receivers when there is room, else unchanged |
| `Mailbox.BoundedMailbox.RecvAttempt` | crates/persistent-entity/src/mailbox.rs:146-164 | One pass of `recv`: the oldest item with a wakeup for senders, or closed, or wait; an item comes before the closed flag |
| `Mailbox.BoundedMailbox.CloseAndDrain` | crates/persistent-entity/src/mailbox.rs:109-118 | Hands out the whole queue, leaves the mailbox closed and empty, wakes everyone |
| `Mailbox.RunKeepsInv` | crates/persistent-entity/src/mailbox.rs:69-164 | In every interleaving of any number of senders, receivers, closers and drainers: accepted items are the received, then the drained, then the queued ones, in order, and are with the tasks they were handed to; length within capacity; no sleeper missed its wakeup |
| `Mailbox.ExactlyOnce` | crates/persistent-entity/src/mailbox.rs:109-164 | An accepted item is in the queue once or with exactly one receiver or drainer, once; an item that was not accepted is nowhere |
| `Mailbox.FirstInFirstOut` | crates/persistent-entity/src/mailbox.rs:109-164 | Nobody is handed an item while one that was accepted earlier is still queued |
| `Mailbox.Verdicts` | crates/persistent-entity/src/mailbox.rs:109-164 | A pass of `send` is refused, accepted behind the queue or put to sleep, exactly as flag and room say; a pass of `recv` gets the oldest item, is told closed or sleeps; a drain is handed the whole queue in order |
| `Mailbox.OutcomesStand` | crates/persistent-entity/src/mailbox.rs:69-164 | Over every run a task goes on with its own call, keeps what it was handed, and what a call returned stands |
| `Mailbox.FinishedForGood` | crates/persistent-entity/src/mailbox.rs:69-164 | Once drained, or once a receiver was told closed, the queue is empty for good and no send is accepted any more |
| `Mailbox.NobodySleepsThrough` | crates/persistent-entity/src/mailbox.rs:69-164 | A receiver asleep on the current generation has an empty queue, a sender of an open mailbox a full one, and neither sleeps on a closed mailbox unless a closer is between flag and notification |
| `Mailbox.QuietSleepersAreRight` | crates/persistent-entity/src/mailbox.rs:69-164 | When nothing can move, sleeping receivers face an empty open mailbox, sleeping senders a full open one, and with room for one item not both |
| `Lifecycle.LifecycleStateMachine.TransitionTo` | crates/persistent-entity/src/lifecycle.rs:39-73 | Moves on the legal transitions and on no others, and says which it was |
| `Lifecycle.LegalAre` | crates/persistent-entity/src/lifecycle.rs:39-73 | The nine transitions, one by one |
| `Lifecycle.TerminalStates` | crates/persistent-entity/src/lifecycle.rs:39-73 | Only another failure follows Failed, only Active or Failed follows Passivated, and nothing leads back to Recovering |
| `Registry.EntityRegistry.LookupOrInsert` | crates/persistent-entity/src/registry.rs:108-135 | A live entry is returned untouched, with its owner; otherwise exactly one is inserted, under an epoch never used before |
| `Registry.EntityRegistry.DeactivateIfMine` | crates/persistent-entity/src/registry.rs:148-154 | Removes the entry if and only if it carries the caller's epoch |
| `Registry.EntityRegistry.ActiveCount` | crates/persistent-entity/src/registry.rs:159-165 | The number of entries whose published state is Active |
| `Registry.EntityRegistry.MarkPassivated` | crates/persistent-entity/src/registry.rs:179-187 | Notes the version, forgets at most one entry and that only at the ceiling of 10,000, leaves routing alone |
| `Tasks.OpenRef` | crates/persistent-entity/src/entity_ref_tokio.rs:147-268 | A reference holds the mailbox of the routing entry: of the live one, or of one newly inserted with its published state at Recovering, which is an activation of the system; an entry made for another triple is refused and never routed to, which in a registry that keeps its rules does not happen |
| `Tasks.Deliver` | crates/persistent-entity/src/mailbox.rs:121-140 | An accepted send is a send of the system, anything else changes nothing |
| `Tasks.Spawn` | crates/persistent-entity/src/entity_ref_tokio.rs:199-262 | The actor and the guard moved into the future are of the inserted entry: its triple, epoch, mailbox and published state |
| `Tasks.TearDown` | crates/persistent-entity/src/entity_ref_tokio.rs:52-75 | The guard's drop is the guard's steps of the machine to their end, and the step that gives up the entry is not taken without removing it; everyone still queued is told "not active", only its own entry is removed, and the published state ends terminal |
| `Tasks.RunTask` | crates/persistent-entity/src/entity_ref_tokio.rs:258-261 | The spawned future comes to what `Lifetime` says, its routing entry is gone and no other, the mailbox is closed and empty, and it ends Failed exactly when the service failed, otherwise Passivated |
| `Registry.TeardownGuard.Drop` | crates/persistent-entity/src/entity_ref_tokio.rs:52-75 | Answers everything queued, leaves the mailbox closed and empty, removes its own entry only, and keeps a terminal published state |
| `EventStore.ResolveTenant` | crates/persistence-api/src/persistence/tenant.rs:29-35 | Refuses the empty tenant and no other |
| `EventStore.OffsetIsOwn` | crates/persistent-entity/src/persistence.rs:600-629 | The offset of a stream is the one declared for its type and id, in every tenant, and zero without one |
| `Entities.SpacesAre` | crates/persistence-api/src/context.rs:19-25 | What makes a tenant blank: the twenty-five characters of Unicode's White_Space |
| `Entities.EventRange` | crates/persistence-api/src/operation/receipt.rs:78-94 | A range is accepted if and only if it is not empty and not inverted |
| `EventStore.ReconciledIffNoKeyRebound` | crates/persistent-entity/src/persistence.rs:528-542 | Staged receipts pass reconciliation if and only if their commit gives no key another fingerprint |
| `EventStore.InMemoryEventStore.Append` | crates/persistent-entity/src/persistence.rs:616-646 | Appends if and only if the expected version is the current one; a refusal leaves an empty stream entry where there was none |
| `EventStore.StagingUnitOfWork.Append` | crates/persistent-entity/src/persistence.rs:801-829 | Stages behind what is committed and staged, or refuses; the store is untouched |
| `EventStore.StagingUnitOfWork.Commit` | crates/persistent-entity/src/persistence.rs:842-856 | All staged events and receipts become visible in one step |
| `EventStore.UnitRefinesDirect` | crates/persistent-entity/src/persistence.rs:801-856 | If nothing else touched its stream, a unit leaves what direct append and receipt insert leave |
| `EventStore.DisjointUnitsCommute` | crates/persistent-entity/src/persistence.rs:842-856 | Units on different streams and receipts commit in either order to the same store |
| `EventStore.CommitExtends` | crates/persistent-entity/src/persistence.rs:842-856 | A commit appends its staged events to each stream and nothing else |
| `EventStore.StaleUnitIsNotRefused` | crates/persistent-entity/src/persistence.rs:842-856 | Two units staged at one version both commit, the later one not where it was told |
| `EventStore.UnitLandsWhereAnnounced` | crates/persistent-entity/src/persistence.rs:801-856 | A unit's events stand right behind what is committed by then, and that is the announced slice and version if and only if the stream has not grown since |
| `EventStore.BlankTenantCommitsTwice` | crates/persistent-entity/src/actor.rs:253-341 | Under a blank tenant that is not empty, a retry of a committed operation finds no receipt, passes both checks and appends again |
| `EventStore.RetryChangesNothingIff` | crates/persistent-entity/src/actor.rs:253-341 | A retry changes nothing, in every store and for all events, if and only if the tenant is empty or not blank |
| `Recovery.PersistenceFacade.AttemptOperation` | crates/persistent-entity/src/actor.rs:257-406 | Gate and unit of work on the real store come to what `Operate` says |
| `Recovery.PersistenceFacade.LoadForRecovery` | crates/persistent-entity/src/persistence.rs:256-327 | The latest snapshot and exactly the events it does not cover, numbered with their versions; an absent stream is empty |
| `Recovery.PersistenceFacade.PersistEvents` | crates/persistent-entity/src/persistence.rs:332-356 | The direct append, or the store's refusal |
| `Recovery.PersistenceFacade.PersistEventsWithReceipt` | crates/persistent-entity/src/persistence.rs:385-421 | Events and receipt together, if and only if version and fingerprint agree; otherwise nothing |
| `Recovery.SnapshotPlusSuffix` | crates/persistent-entity/src/actor.rs:140-182 | Recovery from any valid snapshot gives the state and version of a full replay, or fails when that does |
| `Recovery.SnapStaysValid` | crates/persistent-entity/src/actor.rs:471-487 | A snapshot stays valid however many later commits are never snapshotted |
| `Recovery.RebuiltVersion` | crates/persistent-entity/src/actor.rs:151-182 | Recovery ends at the version the store expects if and only if the snapshot's version lies within the stream |
| `Recovery.UndecodableSnapshotLosesEvents` | crates/persistent-entity/src/actor.rs:151-159 | An undecodable snapshot makes a counting entity miss exactly the covered events, at the full version |
| `Recovery.UndecodableSnapshotIsRightIffEmpty` | crates/persistent-entity/src/actor.rs:151-159 | Recovery from an undecodable snapshot is right for every lawful application, with at least as many states as events to tell apart, if and only if it covers nothing and the entity starts from the initial state |
| `ActorMachine.PublishesLegally` | crates/persistent-entity/src/actor.rs:84-87 | Although the verdict is ignored, every state a running actor publishes is a legal successor |
| `ActorMachine.GuardRespectsTerminal` | crates/persistent-entity/src/entity_ref_tokio.rs:66-73 | The guard never publishes over a terminal state, and always ends in one |
| `ActorMachine.FailedStops` | crates/persistent-entity/src/actor.rs:217-238 | A failed activation calls no handler, appends and snapshots nothing, hands over no effects, and stays failed |
| `ActorMachine.FailsExactlyWhen` | crates/persistent-entity/src/actor.rs:188-449 | An actor fails exactly when recovery cannot load or replay, or events were not appended, or were and cannot be applied; a refused lookup, or a refused receipt of a command without events, does not fail it |
| `ActorMachine.RefusedAs` | crates/persistent-entity/src/actor.rs:121-137 | Those refused without being served are told "not active" by the guard and by an actor that never recovered, "persistence failed" by one that failed later |
| `ActorMachine.AcceptanceIsTold` | crates/persistent-entity/src/actor.rs:489-579 | The acceptor is called for the execution just committed, and the caller is told success or failure as it answered, with the committed events either way |
| `CellKeys.StepKeepsKeys` | crates/persistent-entity/src/actor.rs:241-591 | Every step of anyone keeps, whatever application and snapshots do: the stream is what executions wrote, one execution per key, its receipt filed, one acceptor call each, replies only of what is stored |
| `CellRuns.StepKeepsInv` | crates/persistent-entity/src/actor.rs:121-649 | Every step of anyone also keeps, whatever the application: legal lifecycles, the actor's version the stream's, snapshots within the stream, every execution's events at the versions it claims |
| `CellFold.RunKeepsFold` | crates/persistent-entity/src/actor.rs:121-649 | In every run from a good start of a sound application: state, snapshots and told states are folds of the stream |
| `CellTheorems.OneWriter` | crates/persistent-entity/src/entity_ref_tokio.rs:184-268 | At most one activation holds the entity, and the routing entry carries its epoch, over all lookups, panics and teardowns |
| `CellTheorems.RemovalIsOwn` | crates/persistent-entity/src/registry.rs:148-154 | A guard removes its own entry; a superseded one removes nothing |
| `CellTheorems.PublishedIsLifecycle` | crates/persistent-entity/src/actor.rs:84-87 | The published state is the lifecycle state until the guard publishes, each change legal |
| `CellTheorems.FailStop` | crates/persistent-entity/src/actor.rs:217-238 | After failure no step of the activation reaches handler, store or acceptor |
| `CellTheorems.FailedForGood` | crates/persistent-entity/src/actor.rs:217-238 | Failure is final over whole runs |
| `CellTheorems.NeverStuck` | crates/persistent-entity/src/actor.rs:121-649 | In every reachable state an activation that is not finished has a next step, also when the stores refuse everything, and may die as long as its guard is not at work |
| `CellTheorems.ActiveIsNumbered` | crates/persistent-entity/src/actor.rs:188-214 | Every reachable active actor has a state and the stream's logical length as its version, whatever the application |
| `CellTheorems.ActiveIsCurrent` | crates/persistent-entity/src/actor.rs:188-214 | With a lawful application whose snapshots decode, its state is the fold of all committed events |
| `CellTheorems.NoConflict` | crates/persistent-entity/src/actor.rs:369-418 | From handler to commit the actor's version is the stream's and its key has no receipt; the store's version check passes if and only if its offset is not negative |
| `CellTheorems.AtMostOnce` | crates/persistent-entity/src/actor.rs:253-418 | Per operation key at most one committed execution and at most one acceptor call, across retries, deaths and re-activations |
| `CellTheorems.RetryIsNotExecuted` | crates/persistent-entity/src/actor.rs:253-308 | A command whose key is committed writes nothing and reaches no handler: the same request is answered from the receipt, another is refused |
| `CellTheorems.HandlerSeesNewOperations` | crates/persistent-entity/src/actor.rs:253-313 | A handler is only called for keys without a committed execution |
| `CellTheorems.StreamIsTheLog` | crates/persistent-entity/src/persistence.rs:842-856 | The stream is the concatenation of what committed executions wrote, in commit order |
| `CellTheorems.ReceiptsAreTheLog` | crates/persistent-entity/src/persistence.rs:842-856 | Receipts are filed for exactly the operations with a committed execution, each naming its own |
| `CellTheorems.ReceiptNamesSlice` | crates/persistent-entity/src/actor.rs:370-406 | A receipt names exactly the slice its operation appended |
| `CellTheorems.ReceiptsApart` | crates/persistent-entity/src/actor.rs:370-406 | Slices of different receipts do not overlap |
| `CellTheorems.DurableForGood` | crates/persistent-entity/src/persistence.rs:842-856 | Committed events and receipts are never changed by any later step |
| `CellTheorems.DurableBeforeAcknowledged` | crates/persistent-entity/src/actor.rs:420-579 | A reply with events was sent only with those events in the stream at the claimed versions, committed by that very command |
| `CellTheorems.ToldStateIsFold` | crates/persistent-entity/src/actor.rs:420-579 | The state in every reply with events is the fold of the stream as that execution left it |
| `CellTheorems.AnswersAreSettled` | crates/persistent-entity/src/actor.rs:253-579 | When a command is answered: a replay or refusal is what the filed receipt says, a success without events has its receipt filed, a success with events its execution and receipt under the command's own identity |
| `CellCallers.NoCallerLeftHanging` | crates/persistent-entity/src/entity_ref_tokio.rs:52-75 | When the guard has removed the entry, every accepted command has exactly one reply, except at most one the actor held when it died |
| `CellCallers.NobodyAnsweredTwice` | crates/persistent-entity/src/actor.rs:241-649 | No command is ever answered twice |
| `Runtime.RunProjects` | crates/persistent-entity/src/registry.rs:78-154 | For an entity whose tenant is not blank and whose join no other has, every run of the whole system over the shared stores is a run of that entity alone, whatever the others are |
| `Runtime.ViewStepIsReal` | crates/persistent-entity/src/persistence.rs:616-856 | What the stores do to one entity's view in `Cell` is no more than the real stores do: every such step comes from one of theirs |
| `Runtime.EntityKeyedReachable` | crates/persistent-entity/src/persistence.rs:746-766 | For an entity whose tenant is not blank, operations, receipts and stream go as for an entity alone, even when others share its snapshot key or have blank tenants |
| `Runtime.EntityLooselyReachable` | crates/persistent-entity/src/registry.rs:78-154 | However keyed, each entity's routing, lifecycle and callers go as for an entity alone |
| `Runtime.JoinsAlikeIff` | crates/persistent-entity/src/persistence.rs:256-264 | Snapshot keys are equal if and only if type and id are, whatever the tenants, or a dash inside one's type takes the place of the dash between the other's type and id |
| `Runtime.SnapshotsIsolatedIffIdsDiffer` | crates/persistent-entity/src/persistence.rs:746-766 | Snapshots of one entity never show in another if and only if their joined ids differ |
| `Runtime.SharedSnapshotMisleads` | crates/persistent-entity/src/persistence.rs:746-766 | With equal joined ids an empty entity recovers into the other's state and the store refuses its first append |
| `RuntimeTheorems.OneWriterPerEntity` | crates/persistent-entity/src/entity_ref_tokio.rs:147-268 | One writer per entity in every run of the whole system |
| `RuntimeTheorems.EveryActiveIsCurrent` | crates/persistent-entity/src/actor.rs:188-449 | An active actor's state and version against the shared store, with hypotheses on its own entity only |
| `RuntimeTheorems.EveryActiveIsExpected` | crates/persistent-entity/src/persistence.rs:616-646 | An active actor has the version the shared store expects if and only if its offset is not negative, whatever the applications and the other entities |
| `RuntimeTheorems.EveryOperationAtMostOnce` | crates/persistent-entity/src/actor.rs:253-418 | At most once per entity and key, system-wide, whatever the applications, the snapshots and the other entities, for exactly the tenants under which a retry changes nothing |
| `RuntimeTheorems.WithoutTenantNothingHappens` | crates/persistence-api/src/persistence/tenant.rs:29-35 | An entity with the empty tenant never gets past recovery: it executes nothing and hands over nothing |
| `RuntimeTheorems.EveryStreamIsItsLog` | crates/persistent-entity/src/persistence.rs:616-646 | In every deployment, each stream of the shared store holds what its own executions wrote and nothing else |
| `RuntimeTheorems.EveryCallerHears` | crates/persistent-entity/src/actor.rs:121-137 | No caller left hanging, in every run of the whole system |
| `Commands.ExecutedStaysUpToDate` | crates/persistent-entity/src/actor.rs:241-591 | A command that does not fail leaves state and version those of a full replay of the stream; one that fails does so because its own events cannot be applied, or on a negative offset without writing anything |
| `Commands.AnswerIs` | crates/persistent-entity/src/actor.rs:241-579 | Which answer a command gets, and with what in it, from state, receipts, handler, the store's version and what became of its effects |
| `Commands.ShownTellsApart` | crates/persistent-entity/src/actor.rs:241-579 | A caller can tell all replies apart, but for which execution they report |
| `Commands.SnapshotIs` | crates/persistent-entity/src/actor.rs:471-487 | A snapshot is taken exactly when events were applied and the strategy asks for one, of the new state at the new version |
| `Commands.ToldIsStored` | crates/persistent-entity/src/actor.rs:309-579 | A success appends exactly the events it tells of and files exactly the receipt that names them; a persistence failure leaves state and version, and the handler's events in the store if the version was the store's; any other answer changes nothing |
| `Commands.RetryIsReplayed` | crates/persistent-entity/src/actor.rs:253-308 | After a command's receipt was filed, also by an actor that then failed, the same request is told the outcome that names what was appended and another one under its key is refused, by any later activation and application, and nothing changes |
| `Commands.EveryoneIsAnswered` | crates/persistent-entity/src/actor.rs:217-238 | Every command in a queue gets exactly one reply, in the order of the queue, with or without a failure on the way |
| `Commands.ServeStaysUpToDate` | crates/persistent-entity/src/actor.rs:217-238 | Serving a queue without failure leaves the state the fold of the stream |
| `Commands.ReactivationIsInvisible` | crates/persistent-entity/src/actor.rs:121-214 | Ending after some commands, or dying between two, and recovering from any valid snapshot for the rest: the same replies, stream and receipts as going on |
| `Commands.EndLeavesValidSnapshot` | crates/persistent-entity/src/actor.rs:610-649 | The snapshot of an orderly end is one recovery can use |
| `Actor.EntityActor.RecoverState` | crates/persistent-entity/src/actor.rs:188-214 | Ends Active with the rebuilt state and version or Failed, by steps of the machine |
| `Actor.EntityActor.RebuildStateFromPersistence` | crates/persistent-entity/src/actor.rs:140-182 | Computes `Rebuild` of the entity's snapshot and stream |
| `Actor.EntityActor.PassGate` | crates/persistent-entity/src/actor.rs:245-308 | What the receipt gate decides, from state, identity and receipts |
| `Actor.EntityActor.PersistDirect` | crates/persistent-entity/src/actor.rs:407-418 | Appends the events if and only if the version is the store's, else fails the actor |
| `Actor.EntityActor.PersistWithReceipt` | crates/persistent-entity/src/actor.rs:327-406 | Events and receipt together or not at all, as stage, confirm and commit of the machine; a refusal fails the actor only when there were events |
| `Actor.EntityActor.ApplyCommitted` | crates/persistent-entity/src/actor.rs:420-449 | Applies what was committed, or fails the actor |
| `Actor.EntityActor.SnapshotIfDue` | crates/persistent-entity/src/actor.rs:471-487 | Saves the current state at the current version if the strategy says so, and changes nothing else |
| `Actor.EntityActor.ExecuteCommand` | crates/persistent-entity/src/actor.rs:241-591 | What the caller is told and what is left in state and stores is what `Executed` says; exactly one reply goes out, to the command's own caller; the actor fails exactly when persistence failed; and it is a run of the machine from gate to answer |
| `Actor.EntityActor.ProcessCommands` | crates/persistent-entity/src/actor.rs:217-238 | Serves queued commands in order until signalled, exhausted or failed; whenever the signal comes, what is done and what is left lead to the same end |
| `Actor.EntityActor.DrainMailboxWithError` | crates/persistent-entity/src/actor.rs:599-604 | Refuses every waiting command once, in order, and leaves the mailbox closed and empty |
| `Actor.EntityActor.Passivate` | crates/persistent-entity/src/actor.rs:610-649 | Serves the rest of the queue, then snapshots and marks; after a failure refuses whoever is left |
| `Actor.EntityActor.Run` | crates/persistent-entity/src/actor.rs:121-137 | A whole activation comes to what `Lifetime` says, replies, state and stores, and is a run of the machine; the mailbox is left closed and empty, the published state Failed exactly when the service failed and otherwise Passivated, with the version noted |
| `Actor.EntityActor.StaysGood` | crates/persistent-entity/src/actor.rs:121-137 | Whatever the actor has done, the stores are in order, and with a sound application the state is the fold of the stream |
| `Scheduler.SchedulerEventSender.Emit` | crates/persistent-entity/src/scheduler_event.rs:106-110 | Spends an id either way, and queues the event if and only if there is room and a receiver |
| `Scheduler.DrainAll` | crates/persistent-entity/src/scheduler_event.rs:130-141 | Takes everything buffered, in order |
| `Scheduler.SchedulerState.ApplyDrainedEvents` | crates/persistent-entity/src/scheduler_event.rs:184-205 | The batch, folded into totals, last id, gaps and replay buffer, with 64-bit wrap-around |
| `Scheduler.SchedulerState.ClearReplayBuffer` | crates/persistent-entity/src/scheduler_event.rs:209-211 | Empties the replay buffer and leaves totals, last id and gaps alone |
| `Scheduler.EmitOne` | crates/persistent-entity/src/scheduler_event.rs:106-110 | On the objects an emit is the emit step of the run, with the id it drew, and answers whether that got in |
| `Scheduler.DrainOnce` | crates/persistent-entity/src/scheduler_event.rs:130-205 | On the objects a drain and its application are as many receive steps as there are items and the step that ends the drain |
| `Scheduler.SuccOfWord` | crates/persistent-entity/src/scheduler_event.rs:184-205 | The id after the largest 64-bit number is zero |
| `Scheduler.DrainedIsSummary` | crates/persistent-entity/src/scheduler_event.rs:184-205 | A drain takes the projection of all that was consumed to the projection of that and the batch |
| `Scheduler.BatchingIndependence` | crates/persistent-entity/src/scheduler_event.rs:184-205 | However the events are split into drains: same totals, last id, gap count and replay buffer |
| `Scheduler.ProjectionOfRun` | crates/persistent-entity/src/scheduler_event.rs:106-205 | In every run, emits in any order and going on during drains: what is consumed is the first of what got in, in order, and the state is its projection |
| `Scheduler.ReplayHoldsTheLast` | crates/persistent-entity/src/scheduler_event.rs:198-211 | In every such run, with clears, the buffer is the last min(n, 1024) events since the last clear |
| `Scheduler.GapsAreRuns` | crates/persistent-entity/src/scheduler_event.rs:106-110 | With consecutive ids, the gaps among accepted emits are exactly the runs of drops between them whose length is no multiple of 2^64 |
| `Scheduler.GapsAgreeIff` | crates/persistent-entity/src/scheduler_event.rs:106-110 | That holds whatever is dropped if and only if the ids reach the channel consecutively |
| `Scheduler.GapCountOfRun` | crates/persistent-entity/src/scheduler_event.rs:184-205 | In every run, when the emits up to the last consumed one reached the channel with consecutive ids, the gap count is the number of those runs between consumed events, modulo 2^64 |
| `Scheduler.SwappedEmitsShowAGap` | crates/persistent-entity/src/scheduler_event.rs:106-110 | Two emits that swap show a gap without any drop |
| `Scheduler.EveryRunCounts` | crates/persistent-entity/src/scheduler_event.rs:106-110 | With at most 2^64 emits every run of drops between two accepted events counts |
| `TraceContexts.EncodeHex` | crates/domain/src/tracer.rs:119-125 | Two lowercase digits per byte |
| `TraceContexts.DigitsAre` | crates/domain/src/tracer.rs:119-136 | Which characters are which hex digits, and that the lowercase ones are printed |
| `TraceContexts.SignsAre` | crates/domain/src/tracer.rs:187-256 | The characters that separate, pad and, with `from_str_radix`, may lead a field |
| `TraceContexts.DecodeHex` | crates/domain/src/tracer.rs:127-136 | Fills the buffer with the decoded bytes, or stops at the first pair that does not parse or is no slice of characters |
| `TraceContexts.DecodeIffSpells` | crates/domain/src/tracer.rs:127-136 | Decoding gives these bytes if and only if every pair of the text spells its byte |
| `TraceContexts.DecodePanicsIff` | crates/domain/src/tracer.rs:127-136 | Decoding panics if and only if a slice cuts a character before any pair fails to parse |
| `TraceContexts.BoundariesOfCharacter` | crates/domain/src/tracer.rs:127-136 | A position in UTF-8 text is inside a character exactly at its bytes after the first |
| `TraceContexts.AcceptedIff` | crates/domain/src/tracer.rs:214-256 | Exactly which headers are accepted, and as which ids |
| `TraceContexts.ZeroIs` | crates/domain/src/tracer.rs:243-253 | The id that is refused is the one of zeros only |
| `TraceContexts.PrintedText` | crates/domain/src/tracer.rs:187-192 | The printed header as text: version 00, both ids in hex, flags 01 |
| `TraceContexts.ParsePrinted` | crates/domain/src/tracer.rs:190-192 | Parsing a printed header gives back its ids, and refuses zero ids |
| `TraceContexts.PrintParsed` | crates/domain/src/tracer.rs:214-256 | An accepted header prints back to itself up to the flags if and only if it has no plus sign |
| `TraceContexts.AcceptsWhatIsPrinted` | crates/domain/src/tracer.rs:214-256 | Without plus signs, accepted means printed from some non-zero ids and lowercase flags |
| `TraceContexts.PlusIsTakenForZero` | crates/domain/src/tracer.rs:127-136 | Two different headers that parse to the same ids |
| `TraceContexts.ParsePanicsIff` | crates/domain/src/tracer.rs:214-256 | Parsing panics if and only if the fields are in order and a slice cuts a character in the trace id or, after a good trace id that is not zero, in the span id |
| `TraceContexts.EuroSignPanics` | crates/domain/src/tracer.rs:127-136 | A header that does: a euro sign at the start of the trace id |
| `TraceContexts.AsciiNeverPanics` | crates/domain/src/tracer.rs:214-256 | No ASCII header makes the parser panic |
| `TraceContexts.PassedOn` | crates/domain/src/tracer.rs:167-192 | A continued trace reaches the next service under the same trace id with this span as parent, if and only if the drawn span id is not zero |
| `Effects.CollectChildren` | crates/domain/src/effect.rs:109-119 | Appends the leaves of the effect tree, in order, to the accumulator |
| `Effects.Combine` | crates/domain/src/effect.rs:96-106 | Computes `AndThen` |
| `Effects.EffectInterpreter.InterpretComposed` | crates/runtime/src/interpreter.rs:47-55 | Interprets children in order up to the first error |
| `Effects.AndThenIsInTurn` | crates/domain/src/effect.rs:96-119 | Interpreting `a.and_then(b)` gives the state and error of interpreting `a`, then `b` |
| `Effects.AndThenIsInTurnIffSkips` | crates/domain/src/effect.rs:96-119 | That holds for all effects if and only if the handler treats `NoEffect` as nothing |
| `Effects.NoEffectIsNeutral` | crates/domain/src/effect.rs:96-106 | `NoEffect` on either side leaves the other effect as it is, as a value |
| `Effects.LeavesOfChildren` | crates/domain/src/effect.rs:109-119 | Wherever a child stands in a composition, its leaves stand there among the leaves |
| `Effects.AndThenIsFlat` | crates/domain/src/effect.rs:96-119 | Two real effects combine to a list without nested composition or `NoEffect` |
| `Effects.AndThenAssociates` | crates/domain/src/effect.rs:96-119 | `and_then` is associative, as values and so in meaning |
| `Effects.SameLeavesIffSameRecord` | crates/domain/src/effect.rs:109-119 | Two effects have the same leaves if and only if a recording interpreter cannot tell them apart |
| `Effects.SameLeavesSameMeaning` | crates/domain/src/effect.rs:109-119 | Effects with the same leaves mean the same to every handler that skips `NoEffect` |

## Left out

- `BoundedMailbox`: the waiting in `send` and `recv` has no bound, so their retry loops are the steps of a task in `Mailbox.System`; the methods are single passes.
- Liveness: nothing is proved about fairness or about a task making progress, only that whoever sleeps is right to and that an activation always has a next step.
- `Actor.EntityActor`: sequential, so nobody else sends while it runs, and its tenant is not blank; sends, deaths and other activations in between are the business of `Cell` and `Runtime`. The in-memory stores only refuse for a conflict, a missing tenant or a fingerprint; refusals for any other reason are steps of the machine.
- Versions, epochs and positions are unbounded integers; only the scheduler's counters and ids wrap. Casts between `u64` and `i64` in the version range of a receipt are not modelled.
- `CycleReport.FindCycles`: visits keys in any order, where the code follows the map's; `ReportDeterministic` shows that this does not matter. The stack depth of the recursion is not modelled.
- Events, states and payloads are opaque; hashing, JSON, type erasure and downcasts are not modelled.
- Publishing, metrics, tracing and scheduler emissions inside the actor have no effect on it and are not steps.
- `TokioEntityRef::send_command`: a send followed by a wait for the reply; the mapping of its errors is not modelled. A caller told that the mailbox is closed may open a new reference, which is a new lookup and a new send in `Cell`.
- `NoopEventStore` and `DiscardingUnitOfWork` persist nothing, so the store invariants do not apply.
- PostgreSQL and Stoolap adapters, reservations, leases and fencing.
- The `ego-scheduler` pipeline and `runtime-tokio` rest on task spawning and a round-robin choice with little state to reason about; OTLP adapters and authentication wrap third-party libraries; builders and configuration checks are single conditions.
