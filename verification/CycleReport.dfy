/** The report of `find_cycles` (xtask/src/cycles.rs): which lists come out, and in which order. */
module CycleReport {
  import opened Graphs
  import opened Components
  import opened Cycles
  import opened Orders

  /**
   * `report` lists the strongly connected components with at least two members: members ascending
   * within a list, lists ascending, and no such component missing.
   */
  ghost predicate IsReport(g: Graph<string>, report: seq<seq<string>>) {
    && (forall c :: c in report ==> |c| > 1 && StrictlySorted(StringLess, c) && IsComponent(g, Members(c)))
    && StrictlySorted(NamesLess, report)
    && (forall x, y {:trigger Mutual(g, x, y)} :: x != y && Mutual(g, x, y) ==> exists c :: c in report && x in c && y in c)
  }

  /** `sccs` are all components that contain a key of the graph, each once. */
  ghost predicate AllComponents(g: Graph<string>, sccs: seq<seq<string>>) {
    && (forall c :: c in sccs ==> NoDup(c) && IsComponent(g, Members(c)))
    && (forall i, j :: 0 <= i < j < |sccs| ==> Members(sccs[i]) !! Members(sccs[j]))
    && (forall x :: x in g ==> exists c :: c in sccs && x in c)
  }

  /** With no call open, nothing is left on the stack. */
  lemma NothingOpen(g: Graph<string>, st: Search<string>)
    requires Wf(g, st, {}) && g.Keys <= st.indices.Keys
    ensures st.onStack == {} && AllComponents(g, st.sccs)
  {
    assert forall x :: x in st.onStack ==> Anchored(ReachOf(g), st.indices, {}, x);
    forall x | x in g
      ensures exists c :: c in st.sccs && x in c
    {
      assert x in Done(st);
      var i :| 0 <= i < |st.sccs| && x in st.sccs[i];
      assert st.sccs[i] in st.sccs;
    }
  }

  /** The lists with more than one member, each sorted. */
  function KeepCycles(sccs: seq<seq<string>>): seq<seq<string>> {
    if sccs == [] then []
    else if |sccs[0]| > 1 then [Sort(StringLess, sccs[0])] + KeepCycles(sccs[1..])
    else KeepCycles(sccs[1..])
  }

  lemma {:induction false} KeepCyclesFrom(sccs: seq<seq<string>>, c: seq<string>) returns (d: seq<string>)
    requires c in KeepCycles(sccs)
    ensures d in sccs && |d| > 1 && c == Sort(StringLess, d)
  {
    if |sccs[0]| > 1 && c == Sort(StringLess, sccs[0]) {
      d := sccs[0];
    } else {
      d := KeepCyclesFrom(sccs[1..], c);
    }
  }

  lemma {:induction false} KeepCyclesTo(sccs: seq<seq<string>>, d: seq<string>)
    requires d in sccs && |d| > 1
    ensures Sort(StringLess, d) in KeepCycles(sccs)
  {
    if d != sccs[0] { KeepCyclesTo(sccs[1..], d); }
  }

  lemma {:induction false} NotKept(sccs: seq<seq<string>>, x: string, c: seq<string>)
    requires x in c && forall j :: 0 <= j < |sccs| ==> x !in sccs[j]
    ensures c !in KeepCycles(sccs)
  {
    if sccs != [] {
      SortMembers(StringLess, sccs[0]);
      NotKept(sccs[1..], x, c);
    }
  }

  lemma {:induction false} KeepCyclesNoDup(sccs: seq<seq<string>>)
    requires forall i, j :: 0 <= i < j < |sccs| ==> Members(sccs[i]) !! Members(sccs[j])
    ensures NoDup(KeepCycles(sccs))
  {
    if sccs != [] {
      KeepCyclesNoDup(sccs[1..]);
      if |sccs[0]| > 1 {
        var c, rest := Sort(StringLess, sccs[0]), KeepCycles(sccs[1..]);
        SortMembers(StringLess, sccs[0]);
        assert c[0] in sccs[0];
        forall j | 0 <= j < |sccs[1..]| ensures c[0] !in sccs[1..][j] {
          assert Members(sccs[0]) !! Members(sccs[j + 1]) && c[0] in Members(sccs[0]);
        }
        NotKept(sccs[1..], c[0], c);
      }
    }
  }

  lemma SortedComponent(g: Graph<string>, d: seq<string>)
    requires NoDup(d) && IsComponent(g, Members(d))
    ensures StrictlySorted(StringLess, Sort(StringLess, d)) && IsComponent(g, Members(Sort(StringLess, d)))
  {
    StringOrder();
    SortSorted(StringLess, d);
    SortMembers(StringLess, d);
    assert Members(Sort(StringLess, d)) == Members(d);
  }

  /** Filtering, sorting each list and sorting the lists turns all components into the report. */
  lemma ReportOf(g: Graph<string>, sccs: seq<seq<string>>)
    requires AllComponents(g, sccs)
    ensures IsReport(g, Sort(NamesLess, KeepCycles(sccs)))
  {
    var kept := KeepCycles(sccs);
    var report := Sort(NamesLess, kept);
    SortMembers(NamesLess, kept);
    forall c | c in report
      ensures |c| > 1 && StrictlySorted(StringLess, c) && IsComponent(g, Members(c))
    {
      var d := KeepCyclesFrom(sccs, c);
      SortMembers(StringLess, d);
      SortedComponent(g, d);
    }
    KeepCyclesNoDup(sccs);
    NamesOrder();
    SortSorted(NamesLess, kept);
    forall x, y | x != y && Mutual(g, x, y)
      ensures exists c :: c in report && x in c && y in c
    {
      var z := FirstEdge(g, x, y);
      assert x in g;
      var d :| d in sccs && x in d;
      assert y in Members(d);
      TwoMembers(d, x, y);
      KeepCyclesTo(sccs, d);
      SortMembers(StringLess, d);
    }
  }

  lemma TwoMembers<T>(d: seq<T>, x: T, y: T)
    requires x in d && y in d && x != y
    ensures |d| > 1
  {
  }

  ghost function AllNodes(g: Graph<string>): set<string> {
    g.Keys + (set x, y | x in g && y in g[x] :: y)
  }

  /**
   * `find_cycles`: exactly the strongly connected components with at least two members, whatever
   * the order in which the keys are visited.
   */
  method FindCycles(graph: Graph<string>) returns (cycles: seq<seq<string>>)
    ensures IsReport(graph, cycles)
  {
    var tarjan := new Tarjan(graph);
    var keys := graph.Keys;
    ghost var nodes := AllNodes(graph);
    while keys != {}
      invariant tarjan.graph == graph && fresh(tarjan)
      invariant Wf(graph, tarjan.State(), {}) && tarjan.indices.Keys <= nodes
      invariant keys <= graph.Keys && graph.Keys - keys <= tarjan.indices.Keys
    {
      var node :| node in keys;
      if node !in tarjan.indices {
        tarjan.StrongConnect(node, {}, nodes);
      }
      keys := keys - {node};
    }
    NothingOpen(graph, tarjan.State());
    ReportOf(graph, tarjan.sccs);
    cycles := Sort(NamesLess, KeepCycles(tarjan.sccs));
  }

  /** Two distinct names share a reported list if and only if each depends on the other. */
  lemma SharedListIffMutual(g: Graph<string>, report: seq<seq<string>>, x: string, y: string)
    requires IsReport(g, report) && x != y
    ensures (exists c :: c in report && x in c && y in c) <==> Mutual(g, x, y)
  {
    if c :| c in report && x in c && y in c {
      assert x in Members(c) && y in Members(c);
      assert IsComponent(g, Members(c));
      assert Mutual(g, x, y) <==> y in Members(c);
    }
  }

  lemma ComponentsMeet(g: Graph<string>, c: set<string>, d: set<string>, x: string)
    requires IsComponent(g, c) && IsComponent(g, d) && x in c && x in d
    ensures c == d
  {
    forall y
      ensures y in c <==> y in d
    {
      assert Mutual(g, x, y) <==> y in c;
      assert Mutual(g, x, y) <==> y in d;
    }
  }

  /** No name is reported twice. */
  lemma ListsDisjoint(g: Graph<string>, report: seq<seq<string>>, i: nat, j: nat, x: string)
    requires IsReport(g, report) && i < |report| && j < |report| && x in report[i] && x in report[j]
    ensures i == j
  {
    var c, d := report[i], report[j];
    assert x in Members(c) && x in Members(d);
    ComponentsMeet(g, Members(c), Members(d), x);
    assert forall y :: y in c <==> y in Members(c);
    StringOrder();
    NamesOrder();
    SortedUnique(StringLess, c, d);
  }

  lemma ReportIncluded(g: Graph<string>, r1: seq<seq<string>>, r2: seq<seq<string>>, c: seq<string>)
    requires IsReport(g, r1) && IsReport(g, r2) && c in r1
    ensures c in r2
  {
    StringOrder();
    assert StringLess(c[0], c[1]);
    assert c[0] in Members(c) && c[1] in Members(c);
    assert IsComponent(g, Members(c));
    assert Mutual(g, c[0], c[1]) <==> c[1] in Members(c);
    var d :| d in r2 && c[0] in d && c[1] in d;
    assert c[0] in Members(d);
    ComponentsMeet(g, Members(c), Members(d), c[0]);
    assert forall y :: y in c <==> y in Members(c);
    assert forall y :: y in d <==> y in Members(d);
    SortedUnique(StringLess, c, d);
  }

  /** The report is a function of the graph alone: no traversal order shows in it. */
  lemma ReportDeterministic(g: Graph<string>, r1: seq<seq<string>>, r2: seq<seq<string>>)
    requires IsReport(g, r1) && IsReport(g, r2)
    ensures r1 == r2
  {
    forall c
      ensures c in r1 <==> c in r2
    {
      if c in r1 { ReportIncluded(g, r1, r2, c); }
      if c in r2 { ReportIncluded(g, r2, r1, c); }
    }
    NamesOrder();
    SortedUnique(NamesLess, r1, r2);
  }

  /** As promised, the lists stand in the order of their first members, and members by code point. */
  lemma FirstMembersAscend(g: Graph<string>, report: seq<seq<string>>, i: nat, j: nat)
    requires IsReport(g, report) && i < j < |report|
    ensures |report[i]| > 1 && |report[j]| > 1 && StringLess(report[i][0], report[j][0])
  {
    var c, d := report[i], report[j];
    assert c in report && d in report;
    assert NamesLess(c, d);
    NamesLessIff(c, d);
    var k: nat :| k <= |c| && k < |d| && c[..k] == d[..k] && (k < |c| ==> StringLess(c[k], d[k]));
    if k > 0 {
      assert c[0] == c[..k][0] == d[..k][0] == d[0];
      ListsDisjoint(g, report, i, j, c[0]);
    }
  }
}
