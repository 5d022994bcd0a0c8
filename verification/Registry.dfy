/**
 * The routing registry and the teardown guard
 * (crates/persistent-entity/src/registry.rs, crates/persistent-entity/src/entity_ref_tokio.rs).
 */
module Registry {
  import opened Entities
  import opened Lifecycle
  import opened Mailbox

  const MAX_PASSIVATED_ENTRIES: nat := 10_000

  /** The published-state cell of one activation: written by its actor, read by the registry. */
  class StateCell {
    var state: EntityState

    constructor (state: EntityState)
      ensures this.state == state
    {
      this.state := state;
    }
  }

  /** A routing entry: mailbox, published state, epoch, and the triple that created it. */
  datatype ActiveEntry<M> = ActiveEntry(mailbox: M, cell: StateCell, epoch: nat, triple: Triple)

  datatype RouteOutcome<M> =
    | Existing(mailbox: M, owner: Triple)
    | Inserted(mailbox: M, epoch: nat, tx: StateCell)

  class EntityRegistry<M> {
    var active: map<Triple, ActiveEntry<M>>
    var nextEpoch: nat
    var passivated: map<Triple, nat>

    /** Every entry is filed under its owner, and no two share an epoch. */
    ghost predicate Valid()
      reads this
    {
      && (forall t :: t in active ==> active[t].triple == t && active[t].epoch < nextEpoch)
      && (forall t, u :: t in active && u in active && active[t].epoch == active[u].epoch ==> t == u)
      && Bounded()
    }

    ghost predicate Bounded()
      reads this`passivated
    {
      |passivated| <= MAX_PASSIVATED_ENTRIES
    }

    constructor ()
      ensures Valid() && active == map[] && passivated == map[] && nextEpoch == 0
    {
      active, nextEpoch, passivated := map[], 0, map[];
    }

    /** Single flight: a live entry is returned untouched; otherwise one is made under a new epoch. */
    method LookupOrInsert(triple: Triple, make: () -> M) returns (outcome: RouteOutcome<M>)
      modifies this`active, this`nextEpoch
      ensures old(Valid()) ==> Valid()
      ensures triple in old(active) ==>
        && outcome == Existing(old(active)[triple].mailbox, old(active)[triple].triple)
        && active == old(active) && nextEpoch == old(nextEpoch)
      ensures triple !in old(active) ==>
        && outcome.Inserted? && outcome.mailbox == make() && outcome.epoch == old(nextEpoch)
        && fresh(outcome.tx) && outcome.tx.state == Recovering
        && active == old(active)[triple := ActiveEntry(outcome.mailbox, outcome.tx, outcome.epoch, triple)]
        && nextEpoch == old(nextEpoch) + 1
    {
      if triple in active {
        return Existing(active[triple].mailbox, active[triple].triple);
      }
      var mailbox := make();
      var epoch := nextEpoch;
      nextEpoch := nextEpoch + 1;
      var cell := new StateCell(Recovering);
      active := active[triple := ActiveEntry(mailbox, cell, epoch, triple)];
      outcome := Inserted(mailbox, epoch, cell);
    }

    method Find(triple: Triple) returns (mailbox: Option<M>)
      ensures mailbox == if triple in active then Some(active[triple].mailbox) else None
    {
      mailbox := if triple in active then Some(active[triple].mailbox) else None;
    }

    /** Removal is scoped to the epoch: a superseded activation removes nothing. */
    method DeactivateIfMine(triple: Triple, epoch: nat)
      modifies this`active
      ensures old(Valid()) ==> Valid()
      ensures active == if triple in old(active) && old(active)[triple].epoch == epoch then old(active) - {triple} else old(active)
    {
      if triple in active && active[triple].epoch == epoch {
        active := active - {triple};
      }
    }

    ghost function ActiveTriples(): set<Triple>
      reads this, set t | t in active :: active[t].cell
    {
      set t | t in active && active[t].cell.state == Active
    }

    /** Counts the entries whose published state is `Active`, and no others. */
    method ActiveCount() returns (n: nat)
      ensures n == |ActiveTriples()|
    {
      n := 0;
      var todo := active.Keys;
      ghost var counted: set<Triple> := {};
      while todo != {}
        invariant todo <= active.Keys && n == |counted|
        invariant counted == set t | t in active && t !in todo && active[t].cell.state == Active
      {
        var t :| t in todo;
        if active[t].cell.state == Active {
          counted := counted + {t};
          n := n + 1;
        }
        todo := todo - {t};
      }
      assert counted == ActiveTriples();
    }

    /** Bookkeeping with a ceiling: beyond it some entry is forgotten, and routing never notices. */
    method MarkPassivated(triple: Triple, version: nat)
      requires Bounded()
      modifies this`passivated
      ensures Bounded() && triple in passivated && passivated[triple] == version
      ensures forall t :: t in passivated && t != triple ==> t in old(passivated) && passivated[t] == old(passivated)[t]
      ensures |passivated| <= 10_000
      ensures |old(passivated)| < 10_000 ==> passivated == old(passivated)[triple := version]
      ensures |old(passivated).Keys - passivated.Keys| <= 1
    {
      var kept := passivated;
      ghost var gone: set<Triple> := {};
      if |kept| >= MAX_PASSIVATED_ENTRIES {
        var oldest :| oldest in kept;
        kept := kept - {oldest};
        gone := {oldest};
        assert kept.Keys == passivated.Keys - {oldest};
        assert |kept.Keys| == |passivated.Keys| - 1;
      }
      assert kept[triple := version].Keys == kept.Keys + {triple};
      assert |kept.Keys + {triple}| <= |kept.Keys| + 1;
      assert passivated.Keys - kept[triple := version].Keys <= gone;
      Smaller(passivated.Keys - kept[triple := version].Keys, gone);
      passivated := kept[triple := version];
    }
  }

  lemma {:induction false} Smaller<K>(a: set<K>, b: set<K>)
    requires a <= b
    ensures |a| <= |b|
  {
    if a != {} {
      var x :| x in a;
      Smaller(a - {x}, b - {x});
    }
  }

  function EnsureOwnerMatches(triple: Triple, owner: Triple): (r: Result<(), ()>)
    ensures r.Ok? <==> owner == triple
  {
    if owner != triple then Err(()) else Ok(())
  }

  /** Steps 1 to 4 of `TeardownGuard::drop`. */
  class TeardownGuard<T> {
    const triple: Triple
    const registry: EntityRegistry<BoundedMailbox<T>>
    const epoch: nat
    const mailbox: BoundedMailbox<T>
    const tx: StateCell

    constructor (triple: Triple, registry: EntityRegistry<BoundedMailbox<T>>, epoch: nat, mailbox: BoundedMailbox<T>, tx: StateCell)
      ensures this.triple == triple && this.registry == registry && this.epoch == epoch && this.mailbox == mailbox && this.tx == tx
    {
      this.triple, this.registry, this.epoch, this.mailbox, this.tx := triple, registry, epoch, mailbox, tx;
    }

    /**
     * Returns the commands it answers with "not active": everything still queued. Afterwards the
     * mailbox is closed and empty, the entry is gone if it was this activation's, and the published
     * state is terminal, the actor's own if it had published one.
     */
    method Drop() returns (answered: seq<T>)
      modifies mailbox, registry`active, tx
      ensures (old(registry.Valid()) ==> registry.Valid()) && answered == old(mailbox.queue)
      ensures mailbox.closed && mailbox.queue == []
      ensures registry.active ==
        if triple in old(registry.active) && old(registry.active)[triple].epoch == epoch
        then old(registry.active) - {triple} else old(registry.active)
      ensures tx.state == if old(tx.state) == Passivated then Passivated else Failed
    {
      answered := mailbox.CloseAndDrain();
      registry.DeactivateIfMine(triple, epoch);
      if tx.state != Failed && tx.state != Passivated {
        tx.state := Failed;
      }
    }
  }
}
