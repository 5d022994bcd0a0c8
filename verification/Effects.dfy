/**
 * Effect values, their composition and their interpretation
 * (crates/domain/src/effect.rs, crates/runtime/src/interpreter.rs).
 */
module Effects {
  import opened Entities

  datatype External = External(idempotencyKey: string, effectType: string, payload: seq<bv8>, destination: string)

  datatype Effect<E, R, S> =
    | NoEffect
    | StateMutation(state: S)
    | EventEmission(events: seq<E>)
    | Reply(reply: R)
    | ExternalEffects(effects: seq<External>)
    | Composed(children: seq<Effect<E, R, S>>)

  datatype InterpretationError = UnsupportedEffect(text: string) | Transient(text: string) | Fatal(text: string)

  /** The world after the effect, and the error it stopped at, if any. */
  type Outcome<W> = (W, Option<InterpretationError>)

  /** What an interpreter does with an effect that is not composed. */
  type Handler<!E, !R, !S, !W> = (W, Effect<E, R, S>) -> Outcome<W>

  // ------------------------------------------------------------------------------------------
  // Composition
  // ------------------------------------------------------------------------------------------

  /** The effects a tree holds, left to right, without composition and without `NoEffect`. */
  function Leaves<E, R, S>(e: Effect<E, R, S>): seq<Effect<E, R, S>>
    decreases e, 0
  {
    match e
    case NoEffect => []
    case Composed(children) => AllLeaves(children)
    case _ => [e]
  }

  function AllLeaves<E, R, S>(es: seq<Effect<E, R, S>>): seq<Effect<E, R, S>>
    decreases es, 1
  {
    if es == [] then [] else Leaves(es[0]) + AllLeaves(es[1..])
  }

  /** Pushes the leaves of `e` onto an accumulator. */
  method CollectChildren<E, R, S>(e: Effect<E, R, S>, acc: seq<Effect<E, R, S>>) returns (acc': seq<Effect<E, R, S>>)
    ensures acc' == acc + Leaves(e)
    decreases e
  {
    acc' := acc;
    match e {
      case NoEffect =>
      case Composed(children) =>
        for i := 0 to |children|
          invariant acc' + AllLeaves(children[i..]) == acc + AllLeaves(children)
        {
          assert children[i..][0] == children[i] && children[i..][1..] == children[i + 1..];
          acc' := CollectChildren(children[i], acc');
        }
      case _ => acc' := acc + [e];
    }
  }

  function AndThen<E, R, S>(a: Effect<E, R, S>, b: Effect<E, R, S>): Effect<E, R, S> {
    if a.NoEffect? then b
    else if b.NoEffect? then a
    else Composed(Leaves(a) + Leaves(b))
  }

  /** `and_then`, as it is computed. */
  method Combine<E, R, S>(a: Effect<E, R, S>, b: Effect<E, R, S>) returns (r: Effect<E, R, S>)
    ensures r == AndThen(a, b)
  {
    if a.NoEffect? {
      return b;
    }
    if b.NoEffect? {
      return a;
    }
    var children := CollectChildren(a, []);
    children := CollectChildren(b, children);
    r := Composed(children);
  }

  // ------------------------------------------------------------------------------------------
  // Interpretation
  // ------------------------------------------------------------------------------------------

  /** In order, stopping at the first error. */
  function Meaning<E, R, S, W>(leaf: Handler<E, R, S, W>, w: W, e: Effect<E, R, S>): Outcome<W>
    decreases e, 0
  {
    if e.Composed? then MeaningAll(leaf, w, e.children) else leaf(w, e)
  }

  function MeaningAll<E, R, S, W>(leaf: Handler<E, R, S, W>, w: W, es: seq<Effect<E, R, S>>): Outcome<W>
    decreases es, 1
  {
    if es == [] then (w, None)
    else
      var (w', error) := Meaning(leaf, w, es[0]);
      if error.Some? then (w', error) else MeaningAll(leaf, w', es[1..])
  }

  /** First `a`, then, unless that stopped, `b`. */
  function InTurn<E, R, S, W>(leaf: Handler<E, R, S, W>, w: W, a: Effect<E, R, S>, b: Effect<E, R, S>): Outcome<W> {
    var (w', error) := Meaning(leaf, w, a);
    if error.Some? then (w', error) else Meaning(leaf, w', b)
  }

  class EffectInterpreter<!E, !R, !S, !W> {
    const leaf: Handler<E, R, S, W>
    var world: W

    constructor (leaf: Handler<E, R, S, W>, world: W)
      ensures this.leaf == leaf && this.world == world
    {
      this.leaf, this.world := leaf, world;
    }

    method Interpret(e: Effect<E, R, S>) returns (error: Option<InterpretationError>)
      modifies this
      ensures (world, error) == Meaning(leaf, old(world), e)
      decreases e, 0
    {
      if e.Composed? {
        error := InterpretComposed(e.children);
      } else {
        var (w, r) := leaf(world, e);
        world := w;
        error := r;
      }
    }

    /** Each child in order; the first error ends it. */
    method InterpretComposed(children: seq<Effect<E, R, S>>) returns (error: Option<InterpretationError>)
      modifies this
      ensures (world, error) == MeaningAll(leaf, old(world), children)
      decreases children, 1
    {
      for i := 0 to |children|
        invariant MeaningAll(leaf, world, children[i..]) == MeaningAll(leaf, old(world), children)
      {
        assert children[i..][0] == children[i] && children[i..][1..] == children[i + 1..];
        var r := Interpret(children[i]);
        if r.Some? {
          return r;
        }
      }
      error := None;
    }
  }

  // ------------------------------------------------------------------------------------------
  // Flattening preserves meaning
  // ------------------------------------------------------------------------------------------

  /** `NoEffect` does nothing and cannot fail. */
  ghost predicate SkipsNoEffect<E(!new), R(!new), S(!new), W(!new)>(leaf: Handler<E, R, S, W>) {
    forall w :: leaf(w, NoEffect) == (w, None)
  }

  lemma {:induction false} MeaningSplit<E, R, S, W>(leaf: Handler<E, R, S, W>, w: W, a: seq<Effect<E, R, S>>, b: seq<Effect<E, R, S>>)
    ensures MeaningAll(leaf, w, a + b) ==
      var (w', error) := MeaningAll(leaf, w, a);
      if error.Some? then (w', error) else MeaningAll(leaf, w', b)
  {
    if a == [] {
      assert a + b == b;
    } else {
      assert (a + b)[0] == a[0] && (a + b)[1..] == a[1..] + b;
      MeaningSplit(leaf, Meaning(leaf, w, a[0]).0, a[1..], b);
    }
  }

  /** An effect means what its leaves mean one after the other. */
  lemma {:induction false} MeaningOfLeaves<E(!new), R(!new), S(!new), W(!new)>(leaf: Handler<E, R, S, W>, w: W, e: Effect<E, R, S>)
    requires SkipsNoEffect(leaf)
    ensures MeaningAll(leaf, w, Leaves(e)) == Meaning(leaf, w, e)
    decreases e, 0
  {
    match e
    case NoEffect =>
    case Composed(children) => MeaningOfAllLeaves(leaf, w, children);
    case _ =>
      assert Leaves(e) == [e];
      assert [e][1..] == [];
  }

  lemma {:induction false} MeaningOfAllLeaves<E(!new), R(!new), S(!new), W(!new)>(leaf: Handler<E, R, S, W>, w: W, es: seq<Effect<E, R, S>>)
    requires SkipsNoEffect(leaf)
    ensures MeaningAll(leaf, w, AllLeaves(es)) == MeaningAll(leaf, w, es)
    decreases es, 1
  {
    if es != [] {
      MeaningOfLeaves(leaf, w, es[0]);
      MeaningSplit(leaf, w, Leaves(es[0]), AllLeaves(es[1..]));
      MeaningOfAllLeaves(leaf, Meaning(leaf, w, es[0]).0, es[1..]);
    }
  }

  /** Interpreting the combination is interpreting one after the other. */
  lemma AndThenIsInTurn<E(!new), R(!new), S(!new), W(!new)>(leaf: Handler<E, R, S, W>, w: W, a: Effect<E, R, S>, b: Effect<E, R, S>)
    requires SkipsNoEffect(leaf)
    ensures Meaning(leaf, w, AndThen(a, b)) == InTurn(leaf, w, a, b)
  {
    if !a.NoEffect? && !b.NoEffect? {
      MeaningSplit(leaf, w, Leaves(a), Leaves(b));
      MeaningOfLeaves(leaf, w, a);
      MeaningOfLeaves(leaf, Meaning(leaf, w, a).0, b);
    }
  }

  /** That handlers skip `NoEffect` is exactly what this takes. */
  lemma AndThenIsInTurnIffSkips<E(!new), R(!new), S(!new), W(!new)>(leaf: Handler<E, R, S, W>)
    ensures SkipsNoEffect(leaf) <==> forall w, a, b :: Meaning(leaf, w, AndThen(a, b)) == InTurn(leaf, w, a, b)
  {
    if SkipsNoEffect(leaf) {
      forall w, a, b ensures Meaning(leaf, w, AndThen(a, b)) == InTurn(leaf, w, a, b) {
        AndThenIsInTurn(leaf, w, a, b);
      }
    }
    if forall w, a, b :: Meaning(leaf, w, AndThen(a, b)) == InTurn(leaf, w, a, b) {
      forall w ensures leaf(w, NoEffect) == (w, None) {
        var nothing: Effect<E, R, S> := Composed([]);
        assert Meaning(leaf, w, AndThen(NoEffect, nothing)) == InTurn(leaf, w, NoEffect, nothing);
        assert Meaning(leaf, w, nothing) == (w, None);
      }
    }
  }

  // ------------------------------------------------------------------------------------------
  // The shape of a combination
  // ------------------------------------------------------------------------------------------

  predicate IsLeaf<E, R, S>(e: Effect<E, R, S>) {
    !e.NoEffect? && !e.Composed?
  }

  lemma {:induction false} LeavesAreLeaves<E, R, S>(e: Effect<E, R, S>)
    ensures forall i :: 0 <= i < |Leaves(e)| ==> IsLeaf(Leaves(e)[i])
    decreases e, 0
  {
    if e.Composed? { AllLeavesAreLeaves(e.children); }
  }

  lemma {:induction false} AllLeavesAreLeaves<E, R, S>(es: seq<Effect<E, R, S>>)
    ensures forall i :: 0 <= i < |AllLeaves(es)| ==> IsLeaf(AllLeaves(es)[i])
    decreases es, 1
  {
    if es != [] {
      LeavesAreLeaves(es[0]);
      AllLeavesAreLeaves(es[1..]);
    }
  }

  lemma {:induction false} FlatIsItsLeaves<E, R, S>(es: seq<Effect<E, R, S>>)
    requires forall i :: 0 <= i < |es| ==> IsLeaf(es[i])
    ensures AllLeaves(es) == es
  {
    if es != [] {
      FlatIsItsLeaves(es[1..]);
      assert Leaves(es[0]) == [es[0]];
    }
  }

  lemma LeavesOfAndThen<E, R, S>(a: Effect<E, R, S>, b: Effect<E, R, S>)
    ensures Leaves(AndThen(a, b)) == Leaves(a) + Leaves(b)
  {
    LeavesAreLeaves(a);
    LeavesAreLeaves(b);
    FlatIsItsLeaves(Leaves(a) + Leaves(b));
  }

  /** `NoEffect` is neutral on either side, as a value. */
  lemma NoEffectIsNeutral<E, R, S>(e: Effect<E, R, S>)
    ensures AndThen(NoEffect, e) == e && AndThen(e, NoEffect) == e
  {
  }

  /** The leaves of a composition are its children's, in order; an effect that is no composition has itself or nothing. */
  lemma {:induction false} LeavesOfChildren<E, R, S>(before: seq<Effect<E, R, S>>, e: Effect<E, R, S>, after: seq<Effect<E, R, S>>)
    ensures Leaves(Composed(before + [e] + after)) == Leaves(Composed(before)) + Leaves(e) + Leaves(Composed(after))
    ensures e.NoEffect? ==> Leaves(e) == []
    ensures IsLeaf(e) ==> Leaves(e) == [e]
  {
    var all := before + [e] + after;
    if before == [] {
      assert all[0] == e && all[1..] == after;
    } else {
      assert all[0] == before[0] && all[1..] == before[1..] + [e] + after;
      LeavesOfChildren(before[1..], e, after);
    }
  }

  /** Two real effects combine into a flat list, with no composition and no `NoEffect` inside. */
  lemma AndThenIsFlat<E, R, S>(a: Effect<E, R, S>, b: Effect<E, R, S>)
    requires !a.NoEffect? && !b.NoEffect?
    ensures AndThen(a, b).Composed?
    ensures forall i :: 0 <= i < |AndThen(a, b).children| ==> IsLeaf(AndThen(a, b).children[i])
    ensures AllLeaves(AndThen(a, b).children) == AndThen(a, b).children
  {
    LeavesAreLeaves(a);
    LeavesAreLeaves(b);
    FlatIsItsLeaves(Leaves(a) + Leaves(b));
  }

  /** Associative outright, not only in meaning. */
  lemma AndThenAssociates<E, R, S>(a: Effect<E, R, S>, b: Effect<E, R, S>, c: Effect<E, R, S>)
    ensures AndThen(AndThen(a, b), c) == AndThen(a, AndThen(b, c))
  {
    LeavesOfAndThen(a, b);
    LeavesOfAndThen(b, c);
    assert Leaves(a) + Leaves(b) + Leaves(c) == Leaves(a) + (Leaves(b) + Leaves(c));
  }

  // ------------------------------------------------------------------------------------------
  // Leaves are all there is to the meaning
  // ------------------------------------------------------------------------------------------

  /** Writes down every leaf it is given. */
  function Recording<E, R, S>(): Handler<E, R, S, seq<Effect<E, R, S>>> {
    (w: seq<Effect<E, R, S>>, e: Effect<E, R, S>) => (if e.NoEffect? then w else w + [e], None)
  }

  lemma {:induction false} RecordingOfFlat<E, R, S>(w: seq<Effect<E, R, S>>, es: seq<Effect<E, R, S>>)
    requires forall i :: 0 <= i < |es| ==> IsLeaf(es[i])
    ensures MeaningAll(Recording(), w, es) == (w + es, None)
    decreases |es|
  {
    if es == [] {
      assert w + es == w;
    } else {
      RecordingOfFlat(w + [es[0]], es[1..]);
      assert w + [es[0]] + es[1..] == w + es;
    }
  }

  /**
   * Two effects have the same leaves exactly when the recording interpreter cannot tell them apart;
   * in that case no interpreter that skips `NoEffect` can.
   */
  lemma SameLeavesIffSameRecord<E(!new), R(!new), S(!new)>(a: Effect<E, R, S>, b: Effect<E, R, S>)
    ensures Leaves(a) == Leaves(b) <==> Meaning(Recording(), [], a) == Meaning(Recording(), [], b)
  {
    forall e | e == a || e == b
      ensures Meaning(Recording(), [], e) == (Leaves(e), None)
    {
      MeaningOfLeaves(Recording(), [], e);
      LeavesAreLeaves(e);
      RecordingOfFlat([], Leaves(e));
      assert [] + Leaves(e) == Leaves(e);
    }
  }

  lemma SameLeavesSameMeaning<E(!new), R(!new), S(!new), W(!new)>(leaf: Handler<E, R, S, W>, w: W, a: Effect<E, R, S>, b: Effect<E, R, S>)
    requires SkipsNoEffect(leaf) && Leaves(a) == Leaves(b)
    ensures Meaning(leaf, w, a) == Meaning(leaf, w, b)
  {
    MeaningOfLeaves(leaf, w, a);
    MeaningOfLeaves(leaf, w, b);
  }
}
