/** The layer matrix and the direction and completeness checks (xtask/src/layers.rs). */
module Layers {
  import opened Graphs
  import opened Components
  import opened CycleReport
  import opened Orders

  type LayerMap = map<string, string>

  datatype Violation =
    | WrongDirection(from: string, fromLayer: string, to: string, toLayer: string)
    | UnmappedCrate(name: string)
    | DeadLayerEntry(name: string)
    | InvalidLayer(crateName: string, layer: string)

  /** `Any` is the sink that may depend on everything. */
  datatype Allowed = Any | Only(layers: seq<string>)

  const KNOWN_LAYERS: seq<string> := [
    "domain", "foundation", "cross-cutting", "application", "infrastructure", "sdk", "transport", "tooling"]

  function AllowedLayers(layer: string): Allowed {
    match layer
    case "domain" => Only(["domain"])
    case "foundation" => Only(["domain", "foundation"])
    case "cross-cutting" => Only(["domain"])
    case "application" => Only(["domain"])
    case "infrastructure" => Only(["domain", "application", "foundation", "cross-cutting", "infrastructure"])
    case "sdk" => Only(["domain", "foundation", "cross-cutting"])
    case "transport" => Only(["domain", "application", "cross-cutting", "sdk"])
    case "tooling" => Any
    case _ => Only([])
  }

  /** The edges the design permits between layers, tooling apart. */
  const PERMITTED: set<(string, string)> := {
    ("domain", "domain"),
    ("foundation", "domain"), ("foundation", "foundation"),
    ("cross-cutting", "domain"),
    ("application", "domain"),
    ("infrastructure", "domain"), ("infrastructure", "application"), ("infrastructure", "foundation"),
    ("infrastructure", "cross-cutting"), ("infrastructure", "infrastructure"),
    ("sdk", "domain"), ("sdk", "foundation"), ("sdk", "cross-cutting"),
    ("transport", "domain"), ("transport", "application"), ("transport", "cross-cutting"), ("transport", "sdk")}

  /** Tooling may depend on anything, the other layers on what the design lists, and an unknown layer on nothing. */
  predicate MayDepend(fromLayer: string, toLayer: string) {
    fromLayer == "tooling" || (fromLayer, toLayer) in PERMITTED
  }

  /** The code's matrix permits exactly those edges, and a layer is known exactly when it may depend on something. */
  lemma MatrixIsDesign(fromLayer: string, toLayer: string)
    ensures (AllowedLayers(fromLayer).Any? || toLayer in AllowedLayers(fromLayer).layers) <==> MayDepend(fromLayer, toLayer)
    ensures fromLayer in KNOWN_LAYERS <==> AllowedLayers(fromLayer) != Only([])
    ensures fromLayer in KNOWN_LAYERS <==> MayDepend(fromLayer, "domain")
  {
    if fromLayer !in KNOWN_LAYERS {
      assert AllowedLayers(fromLayer) == Only([]);
    }
  }

  /** The violations of one crate's dependencies, in order. Unmapped names are skipped. */
  function EdgeViolations(from: string, deps: seq<string>, layers: LayerMap): seq<Violation> {
    if deps == [] then []
    else
      var last := deps[|deps| - 1];
      EdgeViolations(from, deps[..|deps| - 1], layers) +
      (if from in layers && last in layers && !MayDepend(layers[from], layers[last])
       then [WrongDirection(from, layers[from], last, layers[last])] else [])
  }

  function DirectionViolations(keys: seq<string>, graph: Graph<string>, layers: LayerMap): seq<Violation> {
    if keys == [] then []
    else
      var last := keys[|keys| - 1];
      DirectionViolations(keys[..|keys| - 1], graph, layers) + EdgeViolations(last, Deps(graph, last), layers)
  }

  lemma EdgesMore(from: string, deps: seq<string>, j: nat, layers: LayerMap)
    requires j < |deps|
    ensures EdgeViolations(from, deps[..j + 1], layers) == EdgeViolations(from, deps[..j], layers) +
      if from in layers && deps[j] in layers && !MayDepend(layers[from], layers[deps[j]])
      then [WrongDirection(from, layers[from], deps[j], layers[deps[j]])] else []
  {
    assert deps[..j + 1][..j] == deps[..j];
  }

  lemma KeysMore(keys: seq<string>, i: nat, graph: Graph<string>, layers: LayerMap)
    requires i < |keys|
    ensures DirectionViolations(keys[..i + 1], graph, layers) ==
      DirectionViolations(keys[..i], graph, layers) + EdgeViolations(keys[i], Deps(graph, keys[i]), layers)
  {
    assert keys[..i + 1][..i] == keys[..i];
  }

  /** `keys` is the order in which the map yields its entries. */
  method CheckDirection(graph: Graph<string>, keys: seq<string>, layers: LayerMap) returns (violations: seq<Violation>)
    requires forall k :: k in keys ==> k in graph
    ensures violations == DirectionViolations(keys, graph, layers)
  {
    violations := [];
    for i := 0 to |keys|
      invariant violations == DirectionViolations(keys[..i], graph, layers)
    {
      var from, deps := keys[i], graph[keys[i]];
      KeysMore(keys, i, graph, layers);
      if from !in layers {
        SkippedCrate(from, deps, layers);
        continue;
      }
      ghost var before := violations;
      for j := 0 to |deps|
        invariant violations == before + EdgeViolations(from, deps[..j], layers)
      {
        var to := deps[j];
        EdgesMore(from, deps, j, layers);
        if to !in layers {
          continue;
        }
        MatrixIsDesign(layers[from], layers[to]);
        var allowed := AllowedLayers(layers[from]);
        if allowed.Only? && layers[to] !in allowed.layers {
          violations := violations + [WrongDirection(from, layers[from], to, layers[to])];
        }
      }
      assert deps[..|deps|] == deps;
    }
    assert keys[..|keys|] == keys;
  }

  lemma {:induction false} SkippedCrate(from: string, deps: seq<string>, layers: LayerMap)
    requires from !in layers
    ensures EdgeViolations(from, deps, layers) == []
  {
    if deps != [] { SkippedCrate(from, deps[..|deps| - 1], layers); }
  }

  /** An edge between mapped crates that the matrix forbids, with their layers. */
  predicate Forbidden(v: Violation, layers: LayerMap) {
    && v.WrongDirection? && v.from in layers && v.to in layers
    && v.fromLayer == layers[v.from] && v.toLayer == layers[v.to] && !MayDepend(v.fromLayer, v.toLayer)
  }

  lemma {:induction false} EdgesExact(from: string, deps: seq<string>, layers: LayerMap, v: Violation)
    ensures v in EdgeViolations(from, deps, layers) <==> Forbidden(v, layers) && v.from == from && v.to in deps
  {
    if deps != [] {
      var before, last := deps[..|deps| - 1], deps[|deps| - 1];
      EdgesExact(from, before, layers, v);
      assert v.WrongDirection? ==> (v.to in deps <==> v.to in before || v.to == last);
    }
  }

  /** The report holds exactly the edges of the graph between mapped crates that the matrix forbids. */
  lemma {:induction false} DirectionExact(keys: seq<string>, graph: Graph<string>, layers: LayerMap, v: Violation)
    ensures v in DirectionViolations(keys, graph, layers) <==>
      Forbidden(v, layers) && v.from in keys && v.to in Deps(graph, v.from)
  {
    if keys != [] {
      var before, last := keys[..|keys| - 1], keys[|keys| - 1];
      DirectionExact(before, graph, layers, v);
      EdgesExact(last, Deps(graph, last), layers, v);
      assert v.WrongDirection? ==> (v.from in keys <==> v.from in before || v.from == last);
    }
  }

  /** A clean direction check permits every mapped edge. */
  lemma DirectionClean(keys: seq<string>, graph: Graph<string>, layers: LayerMap, from: string, to: string)
    requires DirectionViolations(keys, graph, layers) == []
    requires from in keys && to in Deps(graph, from) && from in layers && to in layers
    ensures MayDepend(layers[from], layers[to])
  {
    DirectionExact(keys, graph, layers, WrongDirection(from, layers[from], to, layers[to]));
  }

  /** The crates without an entry, in the order given. */
  function Unmapped(crates: seq<string>, layers: LayerMap): seq<Violation> {
    if crates == [] then []
    else
      var last := crates[|crates| - 1];
      Unmapped(crates[..|crates| - 1], layers) + if last in layers then [] else [UnmappedCrate(last)]
  }

  /** What is wrong with each entry: first that it names no crate, then that its layer is unknown. */
  function BadEntries(names: seq<string>, crates: seq<string>, layers: LayerMap): seq<Violation>
    requires forall n :: n in names ==> n in layers
  {
    if names == [] then []
    else
      var last := names[|names| - 1];
      BadEntries(names[..|names| - 1], crates, layers)
        + (if last in crates then [] else [DeadLayerEntry(last)])
        + (if MayDepend(layers[last], "domain") then [] else [InvalidLayer(last, layers[last])])
  }

  lemma UnmappedMore(crates: seq<string>, i: nat, layers: LayerMap)
    requires i < |crates|
    ensures Unmapped(crates[..i + 1], layers) == Unmapped(crates[..i], layers) + if crates[i] in layers then [] else [UnmappedCrate(crates[i])]
  {
    assert crates[..i + 1][..i] == crates[..i];
  }

  lemma BadEntriesMore(names: seq<string>, i: nat, crates: seq<string>, layers: LayerMap)
    requires i < |names| && forall n :: n in names ==> n in layers
    ensures BadEntries(names[..i + 1], crates, layers) == BadEntries(names[..i], crates, layers)
      + (if names[i] in crates then [] else [DeadLayerEntry(names[i])])
      + (if layers[names[i]] in KNOWN_LAYERS then [] else [InvalidLayer(names[i], layers[names[i]])])
  {
    assert names[..i + 1][..i] == names[..i];
    MatrixIsDesign(layers[names[i]], "domain");
  }

  lemma {:induction false} UnmappedExact(crates: seq<string>, layers: LayerMap, v: Violation)
    ensures v in Unmapped(crates, layers) <==> v.UnmappedCrate? && v.name in crates && v.name !in layers
  {
    if crates != [] {
      var before := crates[..|crates| - 1];
      UnmappedExact(before, layers, v);
      assert v.UnmappedCrate? ==> (v.name in crates <==> v.name in before || v.name == crates[|crates| - 1]);
    }
  }

  lemma {:induction false} BadEntriesExact(names: seq<string>, crates: seq<string>, layers: LayerMap, v: Violation)
    requires forall n :: n in names ==> n in layers
    ensures v in BadEntries(names, crates, layers) <==>
      match v
      case DeadLayerEntry(n) => n in names && n !in crates
      case InvalidLayer(n, l) => n in names && layers[n] == l && l !in KNOWN_LAYERS
      case _ => false
  {
    if names != [] {
      var before, last := names[..|names| - 1], names[|names| - 1];
      BadEntriesExact(before, crates, layers, v);
      MatrixIsDesign(layers[last], "domain");
      assert forall n :: n in names <==> n in before || n == last;
    }
  }

  /** A crate without an entry, an entry without a crate, or an entry with an unknown layer. */
  predicate Incomplete(v: Violation, crates: seq<string>, layers: LayerMap) {
    match v
    case UnmappedCrate(c) => c in crates && c !in layers
    case DeadLayerEntry(n) => n in layers && n !in crates
    case InvalidLayer(n, l) => n in layers && layers[n] == l && l !in KNOWN_LAYERS
    case WrongDirection(_, _, _, _) => false
  }

  /** The report holds exactly those. */
  lemma CompletenessExact(crates: seq<string>, names: seq<string>, layers: LayerMap)
    requires forall n :: n in names <==> n in layers
    ensures forall v :: v in Unmapped(crates, layers) + BadEntries(names, crates, layers) <==> Incomplete(v, crates, layers)
  {
    forall v
      ensures v in Unmapped(crates, layers) + BadEntries(names, crates, layers) <==> Incomplete(v, crates, layers)
    {
      UnmappedExact(crates, layers, v);
      BadEntriesExact(names, crates, layers, v);
    }
  }

  /** `names` is the order in which the layer map yields its entries. */
  method CheckCompleteness(crates: seq<string>, layers: LayerMap, names: seq<string>) returns (violations: seq<Violation>)
    requires forall n :: n in names <==> n in layers
    ensures forall v :: v in violations <==> Incomplete(v, crates, layers)
    ensures violations == Unmapped(crates, layers) + BadEntries(names, crates, layers)
    ensures violations == [] <==> Complete(crates, layers)
  {
    violations := [];
    for i := 0 to |crates|
      invariant violations == Unmapped(crates[..i], layers)
    {
      UnmappedMore(crates, i, layers);
      if crates[i] !in layers {
        violations := violations + [UnmappedCrate(crates[i])];
      }
    }
    assert crates[..|crates|] == crates;
    for i := 0 to |names|
      invariant violations == Unmapped(crates, layers) + BadEntries(names[..i], crates, layers)
    {
      BadEntriesMore(names, i, crates, layers);
      var name := names[i];
      if name !in crates {
        violations := violations + [DeadLayerEntry(name)];
      }
      if layers[name] !in KNOWN_LAYERS {
        violations := violations + [InvalidLayer(name, layers[name])];
      }
    }
    assert names[..|names|] == names;
    CompletenessExact(crates, names, layers);
    CompleteIff(crates, layers, violations);
  }

  lemma CompleteIff(crates: seq<string>, layers: LayerMap, violations: seq<Violation>)
    requires forall v :: v in violations <==> Incomplete(v, crates, layers)
    ensures violations == [] <==> Complete(crates, layers)
  {
    if violations == [] {
      forall c ensures c in crates <==> c in layers {
        assert UnmappedCrate(c) !in violations && DeadLayerEntry(c) !in violations;
      }
      forall n | n in layers ensures layers[n] in KNOWN_LAYERS {
        assert InvalidLayer(n, layers[n]) !in violations;
      }
    } else {
      assert violations[0] in violations;
    }
  }

  /** What a completeness check without violations means. */
  ghost predicate Complete(crates: seq<string>, layers: LayerMap) {
    && (forall c :: c in crates <==> c in layers)
    && (forall n :: n in layers ==> layers[n] in KNOWN_LAYERS)
  }

  /** Height of a layer: permitted edges never lead up, and stay level only inside one layer. */
  function Rank(layer: string): nat {
    match layer
    case "domain" => 0
    case "foundation" => 1
    case "cross-cutting" => 1
    case "application" => 1
    case "infrastructure" => 2
    case "sdk" => 2
    case "transport" => 3
    case _ => 4
  }

  lemma EdgeDescends(a: string, b: string)
    requires a in KNOWN_LAYERS && b in KNOWN_LAYERS && MayDepend(a, b)
    ensures Rank(b) <= Rank(a) && (Rank(b) == Rank(a) ==> a == b)
    ensures a == b ==> a in ["domain", "foundation", "infrastructure", "tooling"]
  {
  }

  /** The graph is closed, completely mapped to known layers, and every edge is permitted. */
  ghost predicate Clean(graph: Graph<string>, layers: LayerMap) {
    && (forall x :: x in graph ==> x in layers && layers[x] in KNOWN_LAYERS)
    && (forall x, y {:trigger y in Deps(graph, x)} :: y in Deps(graph, x) ==> y in graph)
    && (forall x, y {:trigger y in Deps(graph, x)} :: x in layers && y in layers && y in Deps(graph, x) ==> MayDepend(layers[x], layers[y]))
  }

  /** The graph is closed and every edge leads down or stays level inside one layer. */
  ghost predicate EdgesDescend(graph: Graph<string>, layers: LayerMap, rank: string -> nat) {
    forall x, y {:trigger y in Deps(graph, x)} :: x in graph && y in Deps(graph, x) ==>
      y in graph && x in layers && y in layers && LeadsDown(rank, layers[x], layers[y])
  }

  predicate LeadsDown(rank: string -> nat, a: string, b: string) {
    rank(b) <= rank(a) && (rank(b) == rank(a) ==> a == b)
  }

  lemma CleanDescends(graph: Graph<string>, layers: LayerMap)
    requires Clean(graph, layers)
    ensures EdgesDescend(graph, layers, Rank)
  {
    forall x, y | x in graph && y in Deps(graph, x)
      ensures y in graph && x in layers && y in layers && LeadsDown(Rank, layers[x], layers[y])
    {
      EdgeDescends(layers[x], layers[y]);
    }
  }

  lemma {:induction false} PathDescends(graph: Graph<string>, layers: LayerMap, rank: string -> nat, x: string, y: string, n: nat)
    requires EdgesDescend(graph, layers, rank) && x in graph && x in layers && ReachIn(graph, x, y, n)
    ensures y in graph && y in layers && LeadsDown(rank, layers[x], layers[y])
    decreases n
  {
    if n != 0 {
      var z :| z in Deps(graph, x) && ReachIn(graph, z, y, n - 1);
      PathDescends(graph, layers, rank, z, y, n - 1);
    }
  }

  lemma MutualSameLayer(graph: Graph<string>, layers: LayerMap, x: string, y: string)
    requires Clean(graph, layers) && x in graph && x != y && Mutual(graph, x, y)
    ensures y in graph && layers[x] == layers[y]
    ensures layers[x] in ["domain", "foundation", "infrastructure", "tooling"]
  {
    var z := FirstEdge(graph, x, y);
    var n: nat :| ReachIn(graph, z, y, n);
    var m: nat :| ReachIn(graph, y, x, m);
    CleanDescends(graph, layers);
    PathDescends(graph, layers, Rank, z, y, n);
    PathDescends(graph, layers, Rank, y, x, m);
    EdgeDescends(layers[x], layers[z]);
  }

  ghost predicate AllIn(c: seq<string>, layers: LayerMap, layer: string) {
    forall x :: x in c ==> x in layers && layers[x] == layer
  }

  /**
   * When completeness and direction report nothing on a closed crate graph, every reported cycle
   * lies inside one layer, and only four layers can hold one.
   */
  lemma CyclesStayInOneLayer(
      graph: Graph<string>, keys: seq<string>, crates: seq<string>, layers: LayerMap,
      report: seq<seq<string>>, c: seq<string>)
    requires forall k :: k in keys <==> k in graph
    requires forall k :: k in crates <==> k in graph
    requires forall x, y :: y in Deps(graph, x) ==> y in graph
    requires Complete(crates, layers) && DirectionViolations(keys, graph, layers) == []
    requires IsReport(graph, report) && c in report
    ensures exists layer :: layer in ["domain", "foundation", "infrastructure", "tooling"] && AllIn(c, layers, layer)
  {
    forall x, y | x in layers && y in layers && y in Deps(graph, x)
      ensures MayDepend(layers[x], layers[y])
    {
      DirectionClean(keys, graph, layers, x, y);
    }
    assert Clean(graph, layers);
    StringOrder();
    assert StringLess(c[0], c[1]);
    assert c[0] in Members(c) && c[1] in Members(c) && IsComponent(graph, Members(c));
    assert Mutual(graph, c[0], c[1]) <==> c[1] in Members(c);
    var z := FirstEdge(graph, c[0], c[1]);
    assert c[0] in graph;
    var layer := layers[c[0]];
    MutualSameLayer(graph, layers, c[0], c[1]);
    assert layer in ["domain", "foundation", "infrastructure", "tooling"];
    forall x | x in c
      ensures x in layers && layers[x] == layer
    {
      if x != c[0] {
        assert x in Members(c);
        assert Mutual(graph, c[0], x) <==> x in Members(c);
        MutualSameLayer(graph, layers, c[0], x);
      }
    }
  }

  /** The four layers are not an over-estimate: in each, two crates may depend on each other unreported. */
  lemma LayerHoldsCycle(layer: string)
    requires layer in ["domain", "foundation", "infrastructure", "tooling"]
    ensures var g := map["a" := ["b"], "b" := ["a"]];
      Mutual(g, "a", "b") && Complete(["a", "b"], map["a" := layer, "b" := layer]) &&
      DirectionViolations(["a", "b"], g, map["a" := layer, "b" := layer]) == []
  {
    var g := map["a" := ["b"], "b" := ["a"]];
    var layers := map["a" := layer, "b" := layer];
    ReachEdge(g, "a", "b");
    ReachEdge(g, "b", "a");
    assert MayDepend(layer, layer);
    assert ["a", "b"][..1] == ["a"];
    assert EdgeViolations("a", ["b"], layers) == [];
    assert EdgeViolations("b", ["a"], layers) == [];
    assert DirectionViolations(["a"], g, layers) == [];
  }
}
