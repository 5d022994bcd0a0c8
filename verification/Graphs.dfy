/** Directed graphs as dependency lists, and reachability in them. */
module Graphs {

  /** A crate graph: every key's dependency list (layers.rs, `Graph`). */
  type Graph<N> = map<N, seq<N>>

  /** A name that is not a key is a leaf: it has no dependencies. */
  function Deps<N>(g: Graph<N>, v: N): seq<N> {
    if v in g then g[v] else []
  }

  ghost predicate ReachIn<N(!new)>(g: Graph<N>, x: N, y: N, n: nat) {
    if n == 0 then x == y
    else exists z :: z in Deps(g, x) && ReachIn(g, z, y, n - 1)
  }

  /** A path of zero or more dependency edges leads from `x` to `y`. */
  ghost predicate Reach<N(!new)>(g: Graph<N>, x: N, y: N) {
    exists n: nat :: ReachIn(g, x, y, n)
  }

  ghost predicate Mutual<N(!new)>(g: Graph<N>, x: N, y: N) {
    Reach(g, x, y) && Reach(g, y, x)
  }

  /** `c` is a strongly connected component: nonempty, and the class of each of its members. */
  ghost predicate IsComponent<N(!new)>(g: Graph<N>, c: set<N>) {
    && c != {}
    && forall x, y {:trigger Mutual(g, x, y)} :: x in c ==> (y in c <==> Mutual(g, x, y))
  }

  /** No dependency edge leaves `s`. */
  ghost predicate Closed<N(!new)>(g: Graph<N>, s: set<N>) {
    forall x, y {:trigger y in Deps(g, x)} :: x in s && y in Deps(g, x) ==> y in s
  }

  lemma ReachRefl<N(!new)>(g: Graph<N>, x: N)
    ensures Reach(g, x, x)
  {
    assert ReachIn(g, x, x, 0);
  }

  lemma ReachEdge<N(!new)>(g: Graph<N>, x: N, y: N)
    requires y in Deps(g, x)
    ensures Reach(g, x, y)
  {
    assert ReachIn(g, y, y, 0);
    assert ReachIn(g, x, y, 1);
  }

  lemma {:induction false} ReachInTrans<N(!new)>(g: Graph<N>, x: N, y: N, z: N, n: nat, m: nat)
    requires ReachIn(g, x, y, n) && ReachIn(g, y, z, m)
    ensures ReachIn(g, x, z, n + m)
    decreases n
  {
    if n != 0 {
      var w :| w in Deps(g, x) && ReachIn(g, w, y, n - 1);
      ReachInTrans(g, w, y, z, n - 1, m);
    }
  }

  lemma ReachTrans<N(!new)>(g: Graph<N>, x: N, y: N, z: N)
    requires Reach(g, x, y) && Reach(g, y, z)
    ensures Reach(g, x, z)
  {
    var n: nat :| ReachIn(g, x, y, n);
    var m: nat :| ReachIn(g, y, z, m);
    ReachInTrans(g, x, y, z, n, m);
  }

  lemma {:induction false} ClosedIn<N(!new)>(g: Graph<N>, s: set<N>, x: N, y: N, n: nat)
    requires Closed(g, s) && x in s && ReachIn(g, x, y, n)
    ensures y in s
    decreases n
  {
    if n != 0 {
      var z :| z in Deps(g, x) && ReachIn(g, z, y, n - 1);
      ClosedIn(g, s, z, y, n - 1);
    }
  }

  /** A closed set keeps everything reachable from it. */
  lemma ClosedReach<N(!new)>(g: Graph<N>, s: set<N>, x: N, y: N)
    requires Closed(g, s) && x in s && Reach(g, x, y)
    ensures y in s
  {
    var n: nat :| ReachIn(g, x, y, n);
    ClosedIn(g, s, x, y, n);
  }

  /** A path between different nodes leaves its start by an edge. */
  lemma FirstEdge<N(!new)>(g: Graph<N>, x: N, y: N) returns (z: N)
    requires Reach(g, x, y) && x != y
    ensures z in Deps(g, x) && Reach(g, z, y)
  {
    var n: nat :| ReachIn(g, x, y, n);
    z :| z in Deps(g, x) && ReachIn(g, z, y, n - 1);
  }
}
