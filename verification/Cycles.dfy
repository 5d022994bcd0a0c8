/** Cycle detection (xtask/src/cycles.rs). */
module Cycles {
  import opened Graphs
  import opened Components

  /** What a finished call on `v`, started in `st0`, leaves behind. */
  ghost predicate Left<N(!new)>(g: Graph<N>, r: (N, N) -> bool, st0: Search<N>, st: Search<N>, v: N) {
    && Extends(st0, st)
    && v in st.indices && v in st.lowlink && st0.counter <= st.indices[v]
    && st.lowlink[v] <= st.indices[v]
    && (v in st.onStack ==> st.lowlink[v] < st.indices[v] && Witness(r, st, v, st.lowlink[v]))
    && (v !in st.onStack ==> st.lowlink[v] == st.indices[v])
    && CrossBound(g, st, |st0.stack|, st0.onStack, st.lowlink[v])
  }

  /** The call on `v`, started in `st0`, has looked at its first `i` dependencies. */
  ghost predicate Scanning<N(!new)>(g: Graph<N>, r: (N, N) -> bool, st0: Search<N>, st: Search<N>, v: N, i: nat) {
    && Extends(st0, st)
    && v !in st0.indices && v !in st0.lowlink && st0.stack + [v] <= st.stack
    && v in st.indices && v in st.lowlink && st.indices[v] == st0.counter
    && st.lowlink[v] <= st.indices[v]
    && Witness(r, st, v, st.lowlink[v])
    && CrossBound(g, st, |st0.stack| + 1, st0.onStack, st.lowlink[v])
    && Scanned(g, st0, st, v, i)
  }

  ghost predicate Scanned<N(!new)>(g: Graph<N>, st0: Search<N>, st: Search<N>, v: N, i: nat)
    requires v in st.lowlink
  {
    forall j :: 0 <= j < i && j < |Deps(g, v)| ==>
      var w := Deps(g, v)[j];
      w in st.indices && (w in st0.onStack ==> st.lowlink[v] <= st.indices[w])
  }

  function Min(a: nat, b: nat): nat {
    if a <= b then a else b
  }

  function Lower<N>(st: Search<N>, v: N, low: nat): Search<N> {
    st.(lowlink := st.lowlink[v := low])
  }

  lemma LowerKeepsWf<N(!new)>(g: Graph<N>, st: Search<N>, gray: set<N>, v: N, low: nat)
    requires Wf(g, st, gray) && v in st.lowlink
    ensures Wf(g, Lower(st, v, low), gray)
  {
    assert Done(Lower(st, v, low)) == Done(st);
  }

  lemma ScanStart<N(!new)>(g: Graph<N>, r: (N, N) -> bool, st0: Search<N>, v: N)
    requires WfStack(st0) && v !in st0.indices && r(v, v)
    ensures Scanning(g, r, st0, Push(st0, v), v, 0)
  {
    assert v in Push(st0, v).onStack;
  }

  lemma ScanSkip<N(!new)>(g: Graph<N>, r: (N, N) -> bool, st0: Search<N>, st: Search<N>, v: N, i: nat)
    requires WfStack(st0) && WfStack(st) && Scanning(g, r, st0, st, v, i) && i < |Deps(g, v)|
    requires Deps(g, v)[i] in st.indices && Deps(g, v)[i] !in st.onStack
    ensures Scanning(g, r, st0, st, v, i + 1)
  {
    assert forall j :: 0 <= j < |st0.stack| ==> st0.stack[j] == st.stack[j];
  }

  lemma ScanBack<N(!new)>(g: Graph<N>, r: (N, N) -> bool, st0: Search<N>, st: Search<N>, v: N, i: nat, low: nat)
    requires WfStack(st) && Scanning(g, r, st0, st, v, i) && i < |Deps(g, v)| && Deps(g, v)[i] in st.onStack
    requires low == Min(st.lowlink[v], st.indices[Deps(g, v)[i]]) && r(v, Deps(g, v)[i])
    ensures Scanning(g, r, st0, Lower(st, v, low), v, i + 1)
  {
  }

  /** The bound of the caller and that of the callee make one bound. */
  lemma CrossCall<N(!new)>(g: Graph<N>, st: Search<N>, st1: Search<N>, from: nat, below: set<N>, l: nat, l1: nat)
    requires Extends(st, st1) && from <= |st.stack| && below <= st.onStack <= st.indices.Keys
    requires forall x, y :: x in st.onStack && x !in below && y in Deps(g, x) && y in below ==> y in st.indices
    requires CrossBound(g, st, from, below, l) && CrossBound(g, st1, |st.stack|, st.onStack, l1)
    ensures CrossBound(g, st1, from, below, Min(l, l1))
  {
    forall k, y | from <= k < |st1.stack| && y in Deps(g, st1.stack[k]) && y in below && y in st1.indices
      ensures Min(l, l1) <= st1.indices[y]
    {
      if k < |st.stack| {
        assert st.stack[k] == st1.stack[k];
      }
    }
  }

  lemma WitnessCall<N(!new)>(r: (N, N) -> bool, st: Search<N>, st1: Search<N>, v: N, w: N, l: nat, l1: nat)
    requires Extends(st, st1) && WfStack(st) && WfStack(st1) && Witness(r, st, v, l)
    requires l1 < l ==> Witness(r, st1, w, l1)
    requires r(v, w) && forall x, y, z :: r(x, y) && r(y, z) ==> r(x, z)
    ensures Witness(r, st1, v, Min(l, l1))
  {
    if l1 < l {
      var y :| y in st1.onStack && y in st1.indices && st1.indices[y] == l1 && r(w, y);
      assert r(v, y);
    } else {
      var y :| y in st.onStack && y in st.indices && st.indices[y] == l && r(v, y);
      var k :| 0 <= k < |st.stack| && st.stack[k] == y;
      assert st1.stack[k] == y;
    }
  }

  lemma ExtendsCall<N>(st0: Search<N>, st: Search<N>, st1: Search<N>, v: N, low: nat)
    requires Extends(st0, st) && Extends(st, st1) && v !in st0.lowlink
    ensures Extends(st0, Lower(st1, v, low))
  {
  }

  lemma ScannedCall<N(!new)>(g: Graph<N>, st0: Search<N>, st: Search<N>, st1: Search<N>, v: N, i: nat, low: nat)
    requires v in st.lowlink && Scanned(g, st0, st, v, i) && Extends(st, st1) && v in st1.lowlink
    requires i < |Deps(g, v)| && Deps(g, v)[i] in st1.indices && Deps(g, v)[i] !in st0.onStack
    requires low <= st.lowlink[v]
    ensures Scanned(g, st0, Lower(st1, v, low), v, i + 1)
  {
  }

  lemma CrossLower<N(!new)>(g: Graph<N>, st: Search<N>, from: nat, below: set<N>, v: N, low: nat)
    requires CrossBound(g, st, from, below, low)
    ensures CrossBound(g, Lower(st, v, low), from, below, low)
  {
  }

  lemma ScanCall<N(!new)>(g: Graph<N>, r: (N, N) -> bool, st0: Search<N>, st: Search<N>, st1: Search<N>, v: N, i: nat, low: nat)
    requires Scanning(g, r, st0, st, v, i) && st0.onStack <= st.indices.Keys
    requires i < |Deps(g, v)| && Deps(g, v)[i] !in st.indices
    requires Left(g, r, st, st1, Deps(g, v)[i])
    requires v in st1.lowlink && low == Min(st1.lowlink[v], st1.lowlink[Deps(g, v)[i]])
    requires Witness(r, st1, v, low)
    requires CrossBound(g, st1, |st0.stack| + 1, st0.onStack, low)
    ensures Scanning(g, r, st0, Lower(st1, v, low), v, i + 1)
  {
    ExtendsCall(st0, st, st1, v, low);
    ScannedCall(g, st0, st, st1, v, i, low);
    CrossLower(g, st1, |st0.stack| + 1, st0.onStack, v, low);
    assert Witness(r, Lower(st1, v, low), v, low);
  }

  lemma ScanEndTop<N(!new)>(g: Graph<N>, r: (N, N) -> bool, st0: Search<N>, st: Search<N>, v: N, gray: set<N>)
    requires WfStack(st0) && WfStack(st) && Scanning(g, r, st0, st, v, |Deps(g, v)|) && gray <= st0.onStack
    ensures st.stack[..|st0.stack|] == st0.stack && st.stack[|st0.stack|] == v
    ensures TopCall(g, st, gray + {v}, |st0.stack|)
  {
    assert (st0.stack + [v])[|st0.stack|] == v;
    forall k | |st0.stack| < k < |st.stack|
      ensures st.stack[k] !in gray + {v}
    {
      assert forall j :: 0 <= j < |st0.stack| ==> st0.stack[j] == st.stack[j];
    }
  }

  lemma ScanEndBound<N(!new)>(g: Graph<N>, r: (N, N) -> bool, st0: Search<N>, st: Search<N>, v: N)
    requires Scanning(g, r, st0, st, v, |Deps(g, v)|) && st.stack[|st0.stack|] == v
    ensures CrossBound(g, st, |st0.stack|, st0.onStack, st.lowlink[v])
  {
    forall k, y | |st0.stack| <= k < |st.stack| && y in Deps(g, st.stack[k]) && y in st0.onStack && y in st.indices
      ensures st.lowlink[v] <= st.indices[y]
    {
      if k == |st0.stack| {
        var j :| 0 <= j < |Deps(g, v)| && Deps(g, v)[j] == y;
      }
    }
  }

  /** The call on `v` is open and has looked at its first `i` dependencies. */
  ghost predicate Open<N(!new)>(g: Graph<N>, st0: Search<N>, st: Search<N>, v: N, gray: set<N>, i: nat) {
    && WfStack(st0) && gray <= st0.onStack && v !in gray
    && Wf(g, st, gray + {v})
    && Scanning(g, ReachOf(g), st0, st, v, i)
  }

  /** The call on `v`, started in `st0`, is over. */
  ghost predicate Over<N(!new)>(g: Graph<N>, st0: Search<N>, st: Search<N>, v: N, gray: set<N>) {
    Wf(g, st, gray) && Left(g, ReachOf(g), st0, st, v)
  }

  /** The open calls all lead to `v`. */
  ghost predicate AllReach<N(!new)>(g: Graph<N>, gray: set<N>, v: N) {
    forall a {:trigger Reach(g, a, v)} :: a in gray ==> Reach(g, a, v)
  }

  lemma Opens<N(!new)>(g: Graph<N>, st0: Search<N>, v: N, gray: set<N>)
    requires Wf(g, st0, gray) && v !in st0.indices
    requires AllReach(g, gray, v)
    ensures Open(g, st0, Push(st0, v), v, gray, 0)
  {
    ReachRefl(g, v);
    ScanStart(g, ReachOf(g), st0, v);
    PushKeepsWf(g, st0, gray, v);
  }

  lemma Returns<N(!new)>(g: Graph<N>, st0: Search<N>, st: Search<N>, st1: Search<N>, v: N, gray: set<N>, i: nat)
    requires Open(g, st0, st, v, gray, i) && i < |Deps(g, v)| && Deps(g, v)[i] !in st.indices
    requires Over(g, st, st1, Deps(g, v)[i], gray + {v})
    ensures v in st1.lowlink
    ensures Open(g, st0, Lower(st1, v, Min(st1.lowlink[v], st1.lowlink[Deps(g, v)[i]])), v, gray, i + 1)
  {
    var w, r := Deps(g, v)[i], ReachOf(g);
    ReturnsBounds(g, st0, st, st1, v, i);
    ScanCall(g, r, st0, st, st1, v, i, Min(st1.lowlink[v], st1.lowlink[w]));
    LowerKeepsWf(g, st1, gray + {v}, v, Min(st1.lowlink[v], st1.lowlink[w]));
  }

  lemma ReturnsBounds<N(!new)>(g: Graph<N>, st0: Search<N>, st: Search<N>, st1: Search<N>, v: N, i: nat)
    requires WfStack(st0) && WfStack(st) && WfStack(st1) && Scanning(g, ReachOf(g), st0, st, v, i)
    requires i < |Deps(g, v)| && Left(g, ReachOf(g), st, st1, Deps(g, v)[i]) && Deps(g, v)[i] !in st.indices
    ensures v in st1.lowlink
    ensures Witness(ReachOf(g), st1, v, Min(st1.lowlink[v], st1.lowlink[Deps(g, v)[i]]))
    ensures CrossBound(g, st1, |st0.stack| + 1, st0.onStack, Min(st1.lowlink[v], st1.lowlink[Deps(g, v)[i]]))
  {
    var w, r := Deps(g, v)[i], ReachOf(g);
    CrossCall(g, st, st1, |st0.stack| + 1, st0.onStack, st.lowlink[v], st1.lowlink[w]);
    ReachEdge(g, v, w);
    ReachOfTrans(g);
    WitnessCall(r, st, st1, v, w, st.lowlink[v], st1.lowlink[w]);
  }

  lemma Skips<N(!new)>(g: Graph<N>, st0: Search<N>, st: Search<N>, v: N, gray: set<N>, i: nat)
    requires Open(g, st0, st, v, gray, i) && i < |Deps(g, v)|
    requires Deps(g, v)[i] in st.indices && Deps(g, v)[i] !in st.onStack
    ensures Open(g, st0, st, v, gray, i + 1)
  {
    ScanSkip(g, ReachOf(g), st0, st, v, i);
  }

  lemma Meets<N(!new)>(g: Graph<N>, st0: Search<N>, st: Search<N>, v: N, gray: set<N>, i: nat)
    requires Open(g, st0, st, v, gray, i) && i < |Deps(g, v)| && Deps(g, v)[i] in st.onStack
    ensures Open(g, st0, Lower(st, v, Min(st.lowlink[v], st.indices[Deps(g, v)[i]])), v, gray, i + 1)
  {
    var w := Deps(g, v)[i];
    ReachEdge(g, v, w);
    ScanBack(g, ReachOf(g), st0, st, v, i, Min(st.lowlink[v], st.indices[w]));
    LowerKeepsWf(g, st, gray + {v}, v, Min(st.lowlink[v], st.indices[w]));
  }

  lemma FinishPop<N(!new)>(g: Graph<N>, st0: Search<N>, st: Search<N>, v: N, gray: set<N>, scc: seq<N>)
    requires Open(g, st0, st, v, gray, |Deps(g, v)|) && st.lowlink[v] == st.indices[v]
    requires NoDup(scc) && Members(scc) == Members(st.stack[|st0.stack|..])
    ensures Wf(g, Pop(st, |st0.stack|, scc), gray)
  {
    var base := |st0.stack|;
    ScanEndTop(g, ReachOf(g), st0, st, v, gray);
    ScanEndBound(g, ReachOf(g), st0, st, v);
    TopIsClosed(g, st, gray + {v}, base);
    TopIsComponent(g, st, gray + {v}, base);
    PopKeepsWf(g, st, gray + {v}, base, scc);
    assert gray + {v} - {v} == gray;
  }

  lemma FinishPopLeft<N(!new)>(g: Graph<N>, r: (N, N) -> bool, st0: Search<N>, st: Search<N>, v: N, scc: seq<N>)
    requires WfStack(st0) && WfStack(st) && v in scc
    requires Scanning(g, r, st0, st, v, |Deps(g, v)|) && st.lowlink[v] == st.indices[v]
    ensures Left(g, r, st0, Pop(st, |st0.stack|, scc), v)
  {
    assert st.stack[..|st0.stack|] == st0.stack;
  }

  lemma Pops<N(!new)>(g: Graph<N>, st0: Search<N>, st: Search<N>, v: N, gray: set<N>, scc: seq<N>)
    requires Open(g, st0, st, v, gray, |Deps(g, v)|) && st.lowlink[v] == st.indices[v]
    requires NoDup(scc) && v in scc && Members(scc) == Members(st.stack[|st0.stack|..])
    ensures Over(g, st0, Pop(st, |st0.stack|, scc), v, gray)
  {
    FinishPop(g, st0, st, v, gray, scc);
    FinishPopLeft(g, ReachOf(g), st0, st, v, scc);
  }

  lemma FinishKeepLeft<N(!new)>(g: Graph<N>, r: (N, N) -> bool, st0: Search<N>, st: Search<N>, v: N)
    requires WfStack(st0) && WfStack(st)
    requires Scanning(g, r, st0, st, v, |Deps(g, v)|) && st.lowlink[v] < st.indices[v]
    ensures Left(g, r, st0, st, v)
  {
    assert (st0.stack + [v])[|st0.stack|] == v;
    ScanEndBound(g, r, st0, st, v);
  }

  lemma Keeps<N(!new)>(g: Graph<N>, st0: Search<N>, st: Search<N>, v: N, gray: set<N>)
    requires Open(g, st0, st, v, gray, |Deps(g, v)|) && st.lowlink[v] < st.indices[v]
    ensures Over(g, st0, st, v, gray)
  {
    ScanEndTop(g, ReachOf(g), st0, st, v, gray);
    KeepKeepsWf(g, st, gray + {v}, v, st.lowlink[v]);
    assert gray + {v} - {v} == gray;
    FinishKeepLeft(g, ReachOf(g), st0, st, v);
  }

  /** Every node the graph mentions, as a key or as a dependency, is in `nodes`. */
  ghost predicate Covers<N(!new)>(nodes: set<N>, g: Graph<N>) {
    && g.Keys <= nodes
    && forall x, y :: x in nodes && y in Deps(g, x) ==> y in nodes
  }

  lemma EdgeFromGray<N(!new)>(g: Graph<N>, gray: set<N>, v: N, w: N)
    requires w in Deps(g, v) && AllReach(g, gray, v)
    ensures AllReach(g, gray + {v}, w)
  {
    ReachEdge(g, v, w);
    forall a | a in gray
      ensures Reach(g, a, w)
    {
      ReachTrans(g, a, v, w);
    }
  }

  class Tarjan<N(==, !new)> {
    const graph: Graph<N>
    var indexCounter: nat
    var stack: seq<N>
    var onStack: set<N>
    var indices: map<N, nat>
    var lowlink: map<N, nat>
    var sccs: seq<seq<N>>

    ghost function State(): Search<N>
      reads this
    {
      Search(stack, onStack, indices, lowlink, sccs, indexCounter)
    }

    constructor (graph: Graph<N>)
      ensures this.graph == graph && State() == Search([], {}, map[], map[], [], 0)
      ensures Wf(graph, State(), {})
    {
      this.graph := graph;
      indexCounter, stack, onStack, indices, lowlink, sccs := 0, [], {}, map[], map[], [];
    }

    /**
     * Visits `v` and all it reaches, and reports the components that close on the way. `gray` are
     * the nodes of the calls still open and `nodes` all nodes there are.
     */
    method StrongConnect(v: N, ghost gray: set<N>, ghost nodes: set<N>)
      requires Wf(graph, State(), gray) && v !in indices
      requires AllReach(graph, gray, v)
      requires Covers(nodes, graph) && v in nodes && indices.Keys <= nodes
      modifies this
      ensures Over(graph, old(State()), State(), v, gray)
      ensures indices.Keys <= nodes
      decreases nodes - indices.Keys, 0
    {
      ghost var st0 := State();
      Opens(graph, st0, v, gray);
      indices := indices[v := indexCounter];
      lowlink := lowlink[v := indexCounter];
      indexCounter := indexCounter + 1;
      stack := stack + [v];
      onStack := onStack + {v};
      assert State() == Push(st0, v);
      ScanDeps(v, st0, gray, nodes);
      if lowlink[v] == indices[v] {
        ghost var st := State();
        var scc := PopComponent(v, |st0.stack|);
        Pops(graph, st0, st, v, gray, scc);
      } else {
        Keeps(graph, st0, State(), v, gray);
      }
    }

    /** The dependency loop of a call on `v`. */
    method ScanDeps(v: N, ghost st0: Search<N>, ghost gray: set<N>, ghost nodes: set<N>)
      requires Open(graph, st0, State(), v, gray, 0)
      requires AllReach(graph, gray, v)
      requires Covers(nodes, graph) && v in nodes && indices.Keys <= nodes
      modifies this
      ensures Open(graph, st0, State(), v, gray, |Deps(graph, v)|) && indices.Keys <= nodes
      decreases nodes - indices.Keys, 3
    {
      ghost var visited := indices.Keys;
      var n, i := |Deps(graph, v)|, 0;
      while i < n
        invariant 0 <= i <= n == |Deps(graph, v)|
        invariant visited <= indices.Keys <= nodes
        invariant Open(graph, st0, State(), v, gray, i)
        decreases n - i
      {
        ScanDep(v, i, st0, gray, nodes);
        i := i + 1;
      }
    }

    method ScanDep(v: N, i: nat, ghost st0: Search<N>, ghost gray: set<N>, ghost nodes: set<N>)
      requires i < |Deps(graph, v)| && Open(graph, st0, State(), v, gray, i)
      requires AllReach(graph, gray, v)
      requires Covers(nodes, graph) && v in nodes && indices.Keys <= nodes
      modifies this
      ensures Open(graph, st0, State(), v, gray, i + 1) && old(indices).Keys <= indices.Keys <= nodes
      decreases nodes - indices.Keys, 2
    {
      var w := Deps(graph, v)[i];
      if w !in indices {
        VisitDep(v, i, st0, gray, nodes);
      } else if w in onStack {
        Meets(graph, st0, State(), v, gray, i);
        lowlink := lowlink[v := Min(lowlink[v], indices[w])];
      } else {
        Skips(graph, st0, State(), v, gray, i);
      }
    }

    /** A dependency that was not visited yet: the recursive call, then the lowlink it brings back. */
    method VisitDep(v: N, i: nat, ghost st0: Search<N>, ghost gray: set<N>, ghost nodes: set<N>)
      requires i < |Deps(graph, v)| && Deps(graph, v)[i] !in indices && Open(graph, st0, State(), v, gray, i)
      requires AllReach(graph, gray, v)
      requires Covers(nodes, graph) && v in nodes && indices.Keys <= nodes
      modifies this
      ensures Open(graph, st0, State(), v, gray, i + 1) && old(indices).Keys <= indices.Keys <= nodes
      decreases nodes - indices.Keys, 1
    {
      var w := Deps(graph, v)[i];
      ghost var st := State();
      EdgeFromGray(graph, gray, v, w);
      StrongConnect(w, gray + {v}, nodes);
      Returns(graph, st0, st, State(), v, gray, i);
      lowlink := lowlink[v := Min(lowlink[v], lowlink[w])];
    }

    /** The pop loop: takes the stack from position `base`, where `v` is, off as one component. */
    method PopComponent(v: N, ghost base: nat) returns (scc: seq<N>)
      requires NoDup(stack) && base < |stack| && stack[base] == v
      modifies this
      ensures State() == Pop(old(State()), base, scc)
      ensures NoDup(scc) && Members(scc) == Members(old(stack)[base..]) && v in scc
    {
      scc := [];
      var isV := false;
      ghost var all, on := stack, onStack;
      while !isV
        invariant base <= |stack| && stack == all[..|stack|]
        invariant isV <==> |stack| == base
        invariant Reversed(scc, all[|stack|..])
        invariant onStack == on - Members(scc)
        decreases |stack|
        modifies `stack, `onStack
      {
        var w := stack[|stack| - 1];
        PopOne(scc, all, base, |stack|);
        stack := stack[..|stack| - 1];
        onStack := onStack - {w};
        isV := w == v;
        scc := scc + [w];
      }
      ReversedSame(scc, all, base);
      sccs := sccs + [scc];
    }
  }

  ghost predicate Reversed<N>(s: seq<N>, t: seq<N>) {
    |s| == |t| && forall i :: 0 <= i < |s| ==> s[i] == t[|t| - 1 - i]
  }

  lemma PopOne<N>(scc: seq<N>, all: seq<N>, base: nat, n: nat)
    requires NoDup(all) && base < n <= |all| && Reversed(scc, all[n..])
    ensures Reversed(scc + [all[n - 1]], all[n - 1..]) && Members(scc + [all[n - 1]]) == Members(scc) + {all[n - 1]}
    ensures all[n - 1] == all[base] <==> n - 1 == base
  {
  }

  lemma ReversedSame<N>(s: seq<N>, all: seq<N>, base: nat)
    requires base < |all| && Reversed(s, all[base..]) && NoDup(all)
    ensures NoDup(s) && Members(s) == Members(all[base..]) && all[base] in s
  {
    var t := all[base..];
    assert s[|t| - 1] == all[base];
    forall x | x in t
      ensures x in s
    {
      var i :| 0 <= i < |t| && t[i] == x;
      assert s[|t| - 1 - i] == x;
    }
  }
}
