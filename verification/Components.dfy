/** The invariant of the strongly-connected-components search of xtask/src/cycles.rs. */
module Components {
  import opened Graphs

  /** The fields of the search, as one value. */
  datatype Search<N> = Search(
    stack: seq<N>,
    onStack: set<N>,
    indices: map<N, nat>,
    lowlink: map<N, nat>,
    sccs: seq<seq<N>>,
    counter: nat)

  function Members<N>(s: seq<N>): set<N> {
    set x | x in s
  }

  predicate NoDup<N(==)>(s: seq<N>) {
    forall i, j :: 0 <= i < j < |s| ==> s[i] != s[j]
  }

  /** Everything visited and popped: the nodes whose component is settled. */
  ghost function Done<N>(st: Search<N>): set<N> {
    st.indices.Keys - st.onStack
  }

  /** The stack holds visited nodes, without repetition, in order of their index. */
  ghost predicate WfStack<N>(st: Search<N>) {
    && Members(st.stack) == st.onStack
    && NoDup(st.stack)
    && st.onStack <= st.indices.Keys == st.lowlink.Keys
    && (forall x :: x in st.indices ==> st.indices[x] < st.counter)
    && (forall i, j :: 0 <= i < j < |st.stack| ==> st.indices[st.stack[i]] < st.indices[st.stack[j]])
  }

  /** Edges of finished nodes: never to an unvisited node, and from a settled node to settled ones only. */
  ghost predicate WfEdges<N(!new)>(g: Graph<N>, st: Search<N>, gray: set<N>) {
    && gray <= st.onStack
    && (forall x, y {:trigger y in Deps(g, x)} :: x in st.indices && x !in gray && y in Deps(g, x) ==> y in st.indices)
    && Closed(g, Done(st))
  }

  /** `x` reaches an open call whose node lies at or below `x` on the stack. */
  ghost predicate Anchored<N(!new)>(r: (N, N) -> bool, indices: map<N, nat>, gray: set<N>, x: N)
    requires x in indices
  {
    exists a :: a in gray && a in indices && indices[a] <= indices[x] && r(x, a)
  }

  /**
   * Open calls reach everything above them; everything on the stack reaches an open call at or
   * below it. Stated for any relation `r`, so that proofs about it never look inside reachability.
   */
  ghost predicate WfReach<N(!new)>(r: (N, N) -> bool, st: Search<N>, gray: set<N>)
    requires st.onStack <= st.indices.Keys && gray <= st.onStack
  {
    && (forall a, y {:trigger r(a, y)} :: a in gray && y in st.onStack && st.indices[a] <= st.indices[y] ==> r(a, y))
    && (forall x {:trigger Anchored(r, st.indices, gray, x)} :: x in st.onStack ==> Anchored(r, st.indices, gray, x))
  }

  ghost function ReachOf<N(!new)>(g: Graph<N>): (N, N) -> bool {
    (x, y) => Reach(g, x, y)
  }

  /** The reported components are exactly the settled nodes, each list one component. */
  ghost predicate WfSccs<N(!new)>(g: Graph<N>, st: Search<N>) {
    && (forall i :: 0 <= i < |st.sccs| ==> NoDup(st.sccs[i]) && IsComponent(g, Members(st.sccs[i])))
    && (forall i, j :: 0 <= i < j < |st.sccs| ==> Members(st.sccs[i]) !! Members(st.sccs[j]))
    && (forall x :: x in Done(st) <==> exists i :: 0 <= i < |st.sccs| && x in st.sccs[i])
  }

  /** The invariant of the search, for the set `gray` of nodes whose call is still open. */
  ghost predicate Wf<N(!new)>(g: Graph<N>, st: Search<N>, gray: set<N>) {
    && WfStack(st)
    && WfEdges(g, st, gray)
    && WfReach(ReachOf(g), st, gray)
    && WfSccs(g, st)
  }

  /** What a call leaves alone: the stack below it and every earlier index, lowlink and component. */
  ghost predicate Extends<N>(st: Search<N>, st': Search<N>) {
    && st.stack <= st'.stack
    && (forall x :: x in st.indices ==> x in st'.indices && st'.indices[x] == st.indices[x])
    && (forall x :: x in st.lowlink ==> x in st'.lowlink && st'.lowlink[x] == st.lowlink[x])
    && st.sccs <= st'.sccs
    && st.counter <= st'.counter
  }

  /** `low` bounds every edge from the stack above position `from` into `below`. */
  ghost predicate CrossBound<N(!new)>(g: Graph<N>, st: Search<N>, from: nat, below: set<N>, low: nat) {
    forall k, y :: from <= k < |st.stack| && y in Deps(g, st.stack[k]) && y in below && y in st.indices
      ==> low <= st.indices[y]
  }

  /** Some stack node with index `low` is related to `v`. */
  ghost predicate Witness<N(!new)>(r: (N, N) -> bool, st: Search<N>, v: N, low: nat) {
    exists y :: y in st.onStack && y in st.indices && st.indices[y] == low && r(v, y)
  }

  function Push<N>(st: Search<N>, v: N): Search<N> {
    Search(st.stack + [v], st.onStack + {v}, st.indices[v := st.counter], st.lowlink[v := st.counter],
           st.sccs, st.counter + 1)
  }

  lemma PushStack<N>(st: Search<N>, v: N)
    requires WfStack(st) && v !in st.indices
    ensures WfStack(Push(st, v)) && Done(Push(st, v)) == Done(st)
  {
    var st' := Push(st, v);
    assert Members(st'.stack) == st'.onStack;
  }

  lemma PushReach<N(!new)>(r: (N, N) -> bool, st: Search<N>, gray: set<N>, v: N)
    requires WfStack(st) && v !in st.indices && gray <= st.onStack && WfReach(r, st, gray)
    requires r(v, v) && forall a :: a in gray ==> r(a, v)
    ensures WfReach(r, Push(st, v), gray + {v})
  {
    var st' := Push(st, v);
    forall x | x in st'.onStack
      ensures Anchored(r, st'.indices, gray + {v}, x)
    {
      if x == v {
        assert st'.indices[v] <= st'.indices[x];
      } else {
        var a := AnchorOf(r, st, gray, x);
        assert st'.indices[a] <= st'.indices[x];
      }
    }
  }

  lemma AnchorOf<N(!new)>(r: (N, N) -> bool, st: Search<N>, gray: set<N>, x: N) returns (a: N)
    requires WfStack(st) && gray <= st.onStack && WfReach(r, st, gray) && x in st.onStack
    ensures a in gray && st.indices[a] <= st.indices[x] && r(x, a)
  {
    assert Anchored(r, st.indices, gray, x);
    a :| a in gray && a in st.indices && st.indices[a] <= st.indices[x] && r(x, a);
  }

  lemma PushKeepsWf<N(!new)>(g: Graph<N>, st: Search<N>, gray: set<N>, v: N)
    requires Wf(g, st, gray) && v !in st.indices
    requires forall a :: a in gray ==> Reach(g, a, v)
    ensures Wf(g, Push(st, v), gray + {v})
  {
    PushStack(st, v);
    ReachRefl(g, v);
    PushReach(ReachOf(g), st, gray, v);
  }

  /** The call at stack position `base` is the topmost open one, and all its edges are processed. */
  ghost predicate TopCall<N(!new)>(g: Graph<N>, st: Search<N>, gray: set<N>, base: nat) {
    && base < |st.stack| && st.stack[base] in gray
    && (forall k :: base < k < |st.stack| ==> st.stack[k] !in gray)
    && (forall y :: y in Deps(g, st.stack[base]) ==> y in st.indices)
  }

  lemma TopEdge<N(!new)>(g: Graph<N>, st: Search<N>, gray: set<N>, base: nat, k: nat, y: N)
    requires WfStack(st) && WfEdges(g, st, gray) && TopCall(g, st, gray, base)
    requires CrossBound(g, st, base, Members(st.stack[..base]), st.indices[st.stack[base]])
    requires base <= k < |st.stack| && y in Deps(g, st.stack[k])
    ensures y in Done(st) + Members(st.stack[base..])
  {
    assert y in st.indices;
    assert st.stack == st.stack[..base] + st.stack[base..];
  }

  /** With nothing reaching below `base`, settled nodes and the top of the stack are closed together. */
  lemma TopIsClosed<N(!new)>(g: Graph<N>, st: Search<N>, gray: set<N>, base: nat)
    requires WfStack(st) && WfEdges(g, st, gray) && TopCall(g, st, gray, base)
    requires CrossBound(g, st, base, Members(st.stack[..base]), st.indices[st.stack[base]])
    ensures Closed(g, Done(st) + Members(st.stack[base..]))
  {
    var top := Members(st.stack[base..]);
    forall x, y | x in Done(st) + top && y in Deps(g, x)
      ensures y in Done(st) + top
    {
      if x in top {
        var k :| base <= k < |st.stack| && st.stack[k] == x;
        TopEdge(g, st, gray, base, k, y);
      }
    }
  }

  lemma TopReachesRoot<N(!new)>(g: Graph<N>, st: Search<N>, gray: set<N>, base: nat, x: N)
    requires WfStack(st) && gray <= st.onStack && WfReach(ReachOf(g), st, gray) && TopCall(g, st, gray, base)
    requires Closed(g, Done(st) + Members(st.stack[base..])) && x in Members(st.stack[base..])
    ensures Mutual(g, st.stack[base], x)
  {
    var v, top := st.stack[base], Members(st.stack[base..]);
    var k :| base <= k < |st.stack| && st.stack[k] == x;
    assert st.indices[v] <= st.indices[x];
    assert ReachOf(g)(v, x);
    var a := AnchorOf(ReachOf(g), st, gray, x);
    ClosedReach(g, Done(st) + top, x, a);
    assert a in top;
    TopGray(g, st, gray, base, a);
  }

  /** The topmost open call is the only open one in the top of the stack. */
  lemma TopGray<N(!new)>(g: Graph<N>, st: Search<N>, gray: set<N>, base: nat, a: N)
    requires TopCall(g, st, gray, base) && a in gray && a in Members(st.stack[base..])
    ensures a == st.stack[base]
  {
    var j :| base <= j < |st.stack| && st.stack[j] == a;
  }

  lemma RootedClosedIsComponent<N(!new)>(g: Graph<N>, done: set<N>, top: set<N>, v: N)
    requires v in top && done !! top && Closed(g, done) && Closed(g, done + top)
    requires forall x :: x in top ==> Mutual(g, v, x)
    ensures IsComponent(g, top)
  {
    forall x, y | x in top
      ensures y in top <==> Mutual(g, x, y)
    {
      if y in top {
        ReachTrans(g, x, v, y);
        ReachTrans(g, y, v, x);
      }
      if Mutual(g, x, y) {
        ClosedReach(g, done + top, x, y);
        if y in done {
          ClosedReach(g, done, y, x);
        }
      }
    }
  }

  /** When the lowlink of `v` is its own index, the stack from `v` up is one component. */
  lemma TopIsComponent<N(!new)>(g: Graph<N>, st: Search<N>, gray: set<N>, base: nat)
    requires Wf(g, st, gray) && TopCall(g, st, gray, base)
    requires Closed(g, Done(st) + Members(st.stack[base..]))
    ensures IsComponent(g, Members(st.stack[base..]))
  {
    var top := Members(st.stack[base..]);
    assert st.stack[base..][0] == st.stack[base];
    forall x | x in top
      ensures Mutual(g, st.stack[base], x)
    {
      TopReachesRoot(g, st, gray, base, x);
    }
    RootedClosedIsComponent(g, Done(st), top, st.stack[base]);
  }

  ghost function Pop<N>(st: Search<N>, base: nat, scc: seq<N>): Search<N>
    requires base <= |st.stack|
  {
    st.(stack := st.stack[..base], onStack := st.onStack - Members(scc), sccs := st.sccs + [scc])
  }

  lemma PopStack<N>(st: Search<N>, base: nat, scc: seq<N>)
    requires WfStack(st) && base < |st.stack| && Members(scc) == Members(st.stack[base..])
    ensures WfStack(Pop(st, base, scc))
    ensures Members(scc) <= st.onStack && Done(Pop(st, base, scc)) == Done(st) + Members(scc)
  {
    var low, top := st.stack[..base], st.stack[base..];
    assert st.stack == low + top;
    forall x | x in low
      ensures x !in top
    {
      var i :| 0 <= i < base && st.stack[i] == x;
    }
    assert Members(low) == st.onStack - Members(scc);
  }

  lemma PopReach<N(!new)>(r: (N, N) -> bool, st: Search<N>, gray: set<N>, base: nat, scc: seq<N>)
    requires WfStack(st) && gray <= st.onStack && WfReach(r, st, gray)
    requires base < |st.stack| && st.stack[base] in gray && WfStack(Pop(st, base, scc))
    requires forall k :: base < k < |st.stack| ==> st.stack[k] !in gray
    ensures gray - {st.stack[base]} <= Pop(st, base, scc).onStack
    ensures WfReach(r, Pop(st, base, scc), gray - {st.stack[base]})
  {
    var v, st' := st.stack[base], Pop(st, base, scc);
    forall a | a in gray - {v}
      ensures a in st'.onStack
    {
      var k :| 0 <= k < |st.stack| && st.stack[k] == a;
      assert st'.stack[k] == a;
    }
    forall x | x in st'.onStack
      ensures Anchored(r, st'.indices, gray - {v}, x)
    {
      var k :| 0 <= k < base && st.stack[k] == x;
      var a := AnchorOf(r, st, gray, x);
      assert st.indices[x] < st.indices[v];
      assert a in gray - {v};
    }
  }

  lemma PopSccs<N(!new)>(g: Graph<N>, st: Search<N>, base: nat, scc: seq<N>)
    requires WfSccs(g, st) && base < |st.stack|
    requires Members(scc) <= st.onStack && NoDup(scc) && IsComponent(g, Members(scc))
    requires Done(Pop(st, base, scc)) == Done(st) + Members(scc)
    ensures WfSccs(g, Pop(st, base, scc))
  {
    var sccs' := st.sccs + [scc];
    forall i, j | 0 <= i < j < |sccs'|
      ensures Members(sccs'[i]) !! Members(sccs'[j])
    {
      if j == |st.sccs| { SettledApart(g, st, scc, i); }
    }
    PopLists(g, st, scc);
  }

  lemma PopLists<N(!new)>(g: Graph<N>, st: Search<N>, scc: seq<N>)
    requires WfSccs(g, st)
    ensures forall x :: x in Done(st) + Members(scc) <==> exists i :: 0 <= i < |st.sccs + [scc]| && x in (st.sccs + [scc])[i]
  {
    forall x
      ensures x in Done(st) + Members(scc) <==> exists i :: 0 <= i < |st.sccs + [scc]| && x in (st.sccs + [scc])[i]
    {
      ListedIff(st.sccs, scc, x);
    }
  }

  lemma SettledApart<N(!new)>(g: Graph<N>, st: Search<N>, scc: seq<N>, i: nat)
    requires WfSccs(g, st) && Members(scc) <= st.onStack && i < |st.sccs|
    ensures Members(st.sccs[i]) !! Members(scc)
  {
    forall x | x in Members(st.sccs[i])
      ensures x !in Members(scc)
    {
      assert x in st.sccs[i];
      assert x in Done(st);
    }
  }

  lemma ListedIff<N>(sccs: seq<seq<N>>, scc: seq<N>, x: N)
    ensures (exists i :: 0 <= i < |sccs + [scc]| && x in (sccs + [scc])[i]) <==>
      (exists i :: 0 <= i < |sccs| && x in sccs[i]) || x in scc
  {
    var more := sccs + [scc];
    if i :| 0 <= i < |sccs| && x in sccs[i] { assert x in more[i]; }
    if x in scc { assert x in more[|sccs|]; }
  }

  lemma PopKeepsWf<N(!new)>(g: Graph<N>, st: Search<N>, gray: set<N>, base: nat, scc: seq<N>)
    requires Wf(g, st, gray) && TopCall(g, st, gray, base)
    requires Closed(g, Done(st) + Members(st.stack[base..])) && IsComponent(g, Members(st.stack[base..]))
    requires NoDup(scc) && Members(scc) == Members(st.stack[base..])
    ensures Wf(g, Pop(st, base, scc), gray - {st.stack[base]})
  {
    PopStack(st, base, scc);
    PopReach(ReachOf(g), st, gray, base, scc);
    PopSccs(g, st, base, scc);
  }

  /** When the lowlink of `v` lies below it, closing the call of `v` leaves `v` anchored further down. */
  lemma KeepReach<N(!new)>(r: (N, N) -> bool, st: Search<N>, gray: set<N>, v: N, w: N)
    requires WfStack(st) && gray <= st.onStack && WfReach(r, st, gray) && v in gray
    requires w in st.onStack && st.indices[w] < st.indices[v] && r(v, w)
    requires forall x, y, z :: r(x, y) && r(y, z) ==> r(x, z)
    ensures WfReach(r, st, gray - {v})
  {
    var b := AnchorOf(r, st, gray, w);
    assert r(v, b);
    forall x | x in st.onStack
      ensures Anchored(r, st.indices, gray - {v}, x)
    {
      var a := AnchorOf(r, st, gray, x);
      if a == v {
        assert r(x, b);
        assert b in gray - {v};
      } else {
        assert a in gray - {v};
      }
    }
  }

  lemma KeepEdges<N(!new)>(g: Graph<N>, st: Search<N>, gray: set<N>, v: N)
    requires WfEdges(g, st, gray) && (forall y :: y in Deps(g, v) ==> y in st.indices)
    ensures WfEdges(g, st, gray - {v})
  {
  }

  lemma KeepWitness<N(!new)>(g: Graph<N>, st: Search<N>, gray: set<N>, v: N, low: nat)
    requires WfStack(st) && gray <= st.onStack && WfReach(ReachOf(g), st, gray) && v in gray
    requires Witness(ReachOf(g), st, v, low) && low < st.indices[v]
    ensures WfReach(ReachOf(g), st, gray - {v})
  {
    var w :| w in st.onStack && w in st.indices && st.indices[w] == low && ReachOf(g)(v, w);
    ReachOfTrans(g);
    KeepReach(ReachOf(g), st, gray, v, w);
  }

  lemma KeepKeepsWf<N(!new)>(g: Graph<N>, st: Search<N>, gray: set<N>, v: N, low: nat)
    requires Wf(g, st, gray) && v in gray && (forall y :: y in Deps(g, v) ==> y in st.indices)
    requires Witness(ReachOf(g), st, v, low) && low < st.indices[v]
    ensures Wf(g, st, gray - {v})
  {
    KeepEdges(g, st, gray, v);
    KeepWitness(g, st, gray, v, low);
  }

  lemma ReachOfTrans<N(!new)>(g: Graph<N>)
    ensures forall x, y, z :: ReachOf(g)(x, y) && ReachOf(g)(y, z) ==> ReachOf(g)(x, z)
  {
    forall x, y, z | ReachOf(g)(x, y) && ReachOf(g)(y, z)
      ensures ReachOf(g)(x, z)
    {
      ReachTrans(g, x, y, z);
    }
  }
}
