/**
 * The dependency analyser: from the imports found in each analysed file it
 * builds a file-to-file dependency graph, an import graph of nodes and edges
 * for display, and the list of circular dependencies found by a depth-first
 * search from every file. Reading files and parsing their imports are inputs.
 */
module Dependencies {
  import opened Wrappers
  import opened JsonValue
  import opened Text
  import opened Seqs

  // ---------------------------------------------------------------------
  // Matching an imported module name against a file path
  // ---------------------------------------------------------------------

  /** `target.replace(".py", "").split(os.path.sep)`, the separator being "/". */
  function ModuleParts(target: string): seq<string> {
    Split(ReplaceAll(target, ".py", ""), '/')
  }

  /** `imported.replace(".", os.path.sep)`. */
  function DottedPath(imported: string): string {
    ReplaceChar(imported, '.', '/')
  }

  /** The four tests by which an import is taken to refer to a file. */
  predicate Matches(imported: string, target: string) {
    var parts := ModuleParts(target);
    imported == Join(parts, '.')
    || imported in parts
    || EndsWith(target, DottedPath(imported) + ".py")
    || EndsWith(target, DottedPath(imported) + "/__init__.py")
  }

  /** A module name refers to the file and to the package that spell it with slashes. */
  lemma ImportMatchesItsFile(imported: string)
    ensures Matches(imported, DottedPath(imported) + ".py")
    ensures Matches(imported, DottedPath(imported) + "/__init__.py")
  {
    var f := DottedPath(imported) + ".py";
    var p := DottedPath(imported) + "/__init__.py";
    assert f[|f| - |DottedPath(imported) + ".py"|..] == f;
    assert p[|p| - |DottedPath(imported) + "/__init__.py"|..] == p;
  }

  /** The index of the first candidate at or after `from` that the import refers to. */
  function FirstMatchFrom(imported: string, candidates: seq<string>, from: nat): (r: Option<nat>)
    requires from <= |candidates|
    ensures r.Some? ==> from <= r.value < |candidates| && Matches(imported, candidates[r.value])
    ensures r.Some? ==> forall j :: from <= j < r.value ==> !Matches(imported, candidates[j])
    ensures r.None? ==> forall j :: from <= j < |candidates| ==> !Matches(imported, candidates[j])
    decreases |candidates| - from
  {
    if from == |candidates| then None
    else if Matches(imported, candidates[from]) then Some(from)
    else FirstMatchFrom(imported, candidates, from + 1)
  }

  /** The file an import resolves to: the first candidate it matches. */
  function Resolve(imported: string, candidates: seq<string>): (r: Option<string>)
    ensures r.Some? ==> r.value in candidates && Matches(imported, r.value)
    ensures r.None? <==> forall j :: 0 <= j < |candidates| ==> !Matches(imported, candidates[j])
  {
    match FirstMatchFrom(imported, candidates, 0)
    case Some(k) => Some(candidates[k])
    case None => None
  }

  /** The inner loop over candidate files, stopped by `break` at the first match. */
  method FindTarget(imported: string, candidates: seq<string>) returns (r: Option<string>)
    ensures r == Resolve(imported, candidates)
  {
    var j := 0;
    while j < |candidates|
      invariant 0 <= j <= |candidates|
      invariant FirstMatchFrom(imported, candidates, 0) == FirstMatchFrom(imported, candidates, j)
    {
      if Matches(imported, candidates[j]) {
        return Some(candidates[j]);
      }
      j := j + 1;
    }
    r := None;
  }

  // ---------------------------------------------------------------------
  // Collecting the imports of the analysed files
  // ---------------------------------------------------------------------

  /**
   * `imports_map`: the analysed files in insertion order and the imported
   * module names of each. `present` says which files exist and `extract` is
   * the import parser, which may raise.
   */
  datatype ImportsMap = ImportsMap(order: seq<string>, modules: map<string, seq<string>>)

  predicate Distinct(s: seq<string>) {
    forall i, j :: 0 <= i < j < |s| ==> s[i] != s[j]
  }

  /** The insertion order lists every key once. */
  predicate WellKeyed(m: ImportsMap) {
    Distinct(m.order) && m.modules.Keys == Elems(m.order)
  }

  function Record(m: ImportsMap, f: string, imports: seq<string>): ImportsMap {
    ImportsMap(if f in m.modules then m.order else m.order + [f], m.modules[f := imports])
  }

  function Collected(targets: seq<string>, present: string -> bool, extract: string -> Result<seq<string>>)
    : (m: ImportsMap)
    ensures WellKeyed(m)
    ensures forall f :: f in m.modules <==> f in targets && present(f) && extract(f).Ok?
    ensures forall f :: f in m.modules ==> m.modules[f] == extract(f).value
  {
    if targets == [] then ImportsMap([], map[])
    else
      var m := Collected(targets[..|targets| - 1], present, extract);
      var f := targets[|targets| - 1];
      assert targets == targets[..|targets| - 1] + [f];
      if !present(f) then m
      else match extract(f)
        case Raise(_) => m
        case Ok(imports) => Record(m, f, imports)
  }

  /** The first loop of both graph builders: missing files and files whose parsing fails are skipped. */
  method CollectImports(targets: seq<string>, present: string -> bool, extract: string -> Result<seq<string>>)
    returns (m: ImportsMap)
    ensures m == Collected(targets, present, extract)
  {
    m := ImportsMap([], map[]);
    var i := 0;
    while i < |targets|
      invariant 0 <= i <= |targets|
      invariant m == Collected(targets[..i], present, extract)
    {
      var f := targets[i];
      assert targets[..i + 1][..i] == targets[..i];
      if present(f) {
        var parsed := extract(f);
        if parsed.Ok? {
          m := Record(m, f, parsed.value);
        }
      }
      i := i + 1;
    }
    assert targets[..i] == targets;
  }

  // ---------------------------------------------------------------------
  // The dependency graph
  // ---------------------------------------------------------------------

  type Graph = map<string, seq<string>>

  /** The target each import resolves to, import by import. */
  function Resolutions(imports: seq<string>, targets: seq<string>): (found: seq<Option<string>>)
    ensures |found| == |imports|
    ensures forall i :: 0 <= i < |imports| ==> found[i] == Resolve(imports[i], targets)
  {
    seq(|imports|, i requires 0 <= i < |imports| => Resolve(imports[i], targets))
  }

  /** The resolved targets, each kept once, in first-seen order. */
  function Dedup(found: seq<Option<string>>): (deps: seq<string>)
    ensures Distinct(deps)
  {
    if found == [] then []
    else
      var deps := Dedup(found[..|found| - 1]);
      match found[|found| - 1]
      case None => deps
      case Some(t) => if t in deps then deps else deps + [t]
  }

  lemma {:induction false} DedupMembers(found: seq<Option<string>>, d: string)
    ensures d in Dedup(found) <==> Some(d) in found
  {
    if found != [] {
      var init, last := found[..|found| - 1], found[|found| - 1];
      DedupMembers(init, d);
      assert found == init + [last];
      assert Some(d) in found <==> Some(d) in init || last == Some(d);
      var prev := Dedup(init);
      if last.Some? && last.value !in prev {
        assert Dedup(found) == prev + [last.value];
        assert d in prev + [last.value] <==> d in prev || d == last.value;
      }
    }
  }

  /** The dependencies of one file: the resolved target of each import, each kept once, in first-seen order. */
  function DepsOf(imports: seq<string>, targets: seq<string>): (deps: seq<string>)
    ensures Distinct(deps)
    ensures forall d :: d in deps ==> d in targets
  {
    var found := Resolutions(imports, targets);
    assert forall d :: d in Dedup(found) ==> d in targets by {
      forall d | d in Dedup(found) ensures d in targets {
        DedupMembers(found, d);
      }
    }
    Dedup(found)
  }

  /** The dependencies are exactly the files the imports resolve to. */
  lemma DepsOfResolved(imports: seq<string>, targets: seq<string>, d: string)
    ensures d in DepsOf(imports, targets) <==>
      exists i :: 0 <= i < |imports| && Resolve(imports[i], targets) == Some(d)
  {
    var found := Resolutions(imports, targets);
    DedupMembers(found, d);
    if Some(d) in found {
      var i :| 0 <= i < |found| && found[i] == Some(d);
      assert Resolve(imports[i], targets) == Some(d);
    }
  }

  method FileDeps(imports: seq<string>, targets: seq<string>) returns (deps: seq<string>)
    ensures deps == DepsOf(imports, targets)
  {
    ghost var found := Resolutions(imports, targets);
    deps := [];
    var i := 0;
    while i < |imports|
      invariant 0 <= i <= |imports|
      invariant deps == Dedup(found[..i])
    {
      assert found[..i + 1][..i] == found[..i];
      var t := FindTarget(imports[i], targets);
      if t.Some? && t.value !in deps {
        deps := deps + [t.value];
      }
      i := i + 1;
    }
    assert found[..i] == found;
  }

  /** The graph of `analyze_module_dependencies`: one entry per analysed file. */
  predicate IsDependencyGraph(g: Graph, m: ImportsMap, targets: seq<string>) {
    g.Keys == m.modules.Keys && forall f :: f in g ==> g[f] == DepsOf(m.modules[f], targets)
  }

  method BuildGraph(m: ImportsMap, targets: seq<string>) returns (g: Graph)
    requires WellKeyed(m)
    ensures IsDependencyGraph(g, m, targets)
  {
    g := map[];
    var i := 0;
    while i < |m.order|
      invariant 0 <= i <= |m.order|
      invariant g.Keys == set k | 0 <= k < i :: m.order[k]
      invariant forall f :: f in g ==> f in m.modules && g[f] == DepsOf(m.modules[f], targets)
    {
      var f := m.order[i];
      var deps := FileDeps(m.modules[f], targets);
      g := g[f := deps];
      i := i + 1;
    }
  }

  /** Every adjacency list has no repeats and names only files among the targets. */
  lemma DependencyGraphShape(g: Graph, m: ImportsMap, targets: seq<string>)
    requires IsDependencyGraph(g, m, targets)
    ensures forall f :: f in g ==> Distinct(g[f]) && forall d :: d in g[f] ==> d in targets
  {
  }

  function GraphValue(g: Graph): Value {
    JObj(map f | f in g :: StrList(g[f]))
  }

  function DependencyReply(g: Graph, m: ImportsMap): Dict {
    map["status" := JStr("success"), "dependency_graph" := GraphValue(g), "files_analyzed" := JNum(|m.order|)]
  }

  // ---------------------------------------------------------------------
  // The import graph for display
  // ---------------------------------------------------------------------

  /** `os.path.basename`: the text after the last "/". */
  function Basename(path: string): string {
    var parts := Split(path, '/');
    parts[|parts| - 1]
  }

  datatype Node = Node(id: string, name: string)
  datatype Edge = Edge(source: string, target: string)

  function NodesOf(order: seq<string>): (ns: seq<Node>)
    ensures |ns| == |order|
    ensures forall i :: 0 <= i < |order| ==> ns[i] == Node(order[i], Basename(order[i]))
  {
    seq(|order|, i requires 0 <= i < |order| => Node(order[i], Basename(order[i])))
  }

  /** The edges out of one file: one for each import that resolves among the analysed files. */
  function EdgesFrom(source: string, imports: seq<string>, keys: seq<string>): (es: seq<Edge>)
    ensures |es| <= |imports|
    ensures forall e :: e in es ==> e.source == source && e.target in keys
  {
    if imports == [] then []
    else
      var es := EdgesFrom(source, imports[..|imports| - 1], keys);
      match Resolve(imports[|imports| - 1], keys)
      case None => es
      case Some(t) => es + [Edge(source, t)]
  }

  function ImportCount(m: ImportsMap, k: nat): nat
    requires k <= |m.order| && WellKeyed(m)
  {
    if k == 0 then 0 else ImportCount(m, k - 1) + |m.modules[m.order[k - 1]]|
  }

  /** The edges out of the first `k` files in insertion order. */
  function EdgesOf(m: ImportsMap, k: nat): (es: seq<Edge>)
    requires k <= |m.order| && WellKeyed(m)
    ensures |es| <= ImportCount(m, k)
    ensures forall e :: e in es ==> e.source in m.modules && e.target in m.order
  {
    if k == 0 then []
    else EdgesOf(m, k - 1) + EdgesFrom(m.order[k - 1], m.modules[m.order[k - 1]], m.order)
  }

  method SourceEdges(source: string, imports: seq<string>, keys: seq<string>) returns (es: seq<Edge>)
    ensures es == EdgesFrom(source, imports, keys)
  {
    es := [];
    var i := 0;
    while i < |imports|
      invariant 0 <= i <= |imports|
      invariant es == EdgesFrom(source, imports[..i], keys)
    {
      assert imports[..i + 1][..i] == imports[..i];
      var t := FindTarget(imports[i], keys);
      if t.Some? {
        es := es + [Edge(source, t.value)];
      }
      i := i + 1;
    }
    assert imports[..i] == imports;
  }

  /** `generate_import_graph` after collecting the imports: nodes in insertion order, then the edges. */
  method ImportGraph(m: ImportsMap) returns (nodes: seq<Node>, edges: seq<Edge>)
    requires WellKeyed(m)
    ensures nodes == NodesOf(m.order)
    ensures edges == EdgesOf(m, |m.order|)
  {
    nodes := [];
    var i := 0;
    while i < |m.order|
      invariant 0 <= i <= |m.order|
      invariant nodes == NodesOf(m.order[..i])
    {
      nodes := nodes + [Node(m.order[i], Basename(m.order[i]))];
      i := i + 1;
    }
    assert m.order[..i] == m.order;
    edges := [];
    var k := 0;
    while k < |m.order|
      invariant 0 <= k <= |m.order|
      invariant edges == EdgesOf(m, k)
    {
      var out := SourceEdges(m.order[k], m.modules[m.order[k]], m.order);
      edges := edges + out;
      k := k + 1;
    }
  }

  /** One node per analysed file and at most one edge per import, all between analysed files. */
  lemma ImportGraphShape(m: ImportsMap)
    requires WellKeyed(m)
    ensures |NodesOf(m.order)| == |m.modules|
    ensures |EdgesOf(m, |m.order|)| <= ImportCount(m, |m.order|)
    ensures forall e :: e in EdgesOf(m, |m.order|) ==> e.source in m.modules && e.target in m.modules
  {
    DistinctKeysCount(m.order, m.modules.Keys);
  }

  lemma {:induction false} DistinctKeysCount(order: seq<string>, keys: set<string>)
    requires Distinct(order) && forall f :: f in keys <==> f in order
    ensures |keys| == |order|
  {
    if order != [] {
      var last := order[|order| - 1];
      var init := order[..|order| - 1];
      assert forall f :: f in keys - {last} <==> f in init by {
        assert order == init + [last];
      }
      DistinctKeysCount(init, keys - {last});
    }
  }

  function NodeValue(n: Node): Value {
    JObj(map["id" := JStr(n.id), "label" := JStr(n.name)])
  }

  function EdgeValue(e: Edge): Value {
    JObj(map["source" := JStr(e.source), "target" := JStr(e.target)])
  }

  function ImportGraphReply(nodes: seq<Node>, edges: seq<Edge>, filesAnalyzed: nat): Dict {
    map["status" := JStr("success"),
        "graph" := JObj(map["nodes" := JArr(seq(|nodes|, i requires 0 <= i < |nodes| => NodeValue(nodes[i]))),
                            "edges" := JArr(seq(|edges|, i requires 0 <= i < |edges| => EdgeValue(edges[i])))]),
        "files_analyzed" := JNum(filesAnalyzed)]
  }

  // ---------------------------------------------------------------------
  // Depth-first search for cycles through a start node
  // ---------------------------------------------------------------------

  /** `graph.get(node, [])`. */
  function Adj(g: Graph, n: string): seq<string> {
    if n in g then g[n] else []
  }

  /** Every node the search can reach: the keys and every listed dependency. */
  function Nodes(g: Graph): (ns: set<string>)
    ensures forall k, n :: k in g && n in g[k] ==> n in ns
    ensures g.Keys <= ns
  {
    g.Keys + set k, n | k in g && n in g[k] :: n
  }

  function Elems(path: seq<string>): set<string> {
    set x | x in path
  }

  lemma Shrinks(u: set<string>, v: set<string>, c: string)
    requires c in u && c !in v
    ensures |u - (v + {c})| < |u - v|
  {
    assert u - v == (u - (v + {c})) + {c};
  }

  /** Pushing an unvisited node of the graph leaves fewer nodes to visit. */
  lemma Push(g: Graph, path: seq<string>, current: string)
    requires current in Nodes(g) && current !in path
    ensures Elems(path + [current]) == Elems(path) + {current}
    ensures |Nodes(g) - Elems(path + [current])| < |Nodes(g) - Elems(path)|
    ensures forall n :: n in Adj(g, current) ==> n in Nodes(g)
  {
    assert Elems(path + [current]) == Elems(path) + {current};
    Shrinks(Nodes(g), Elems(path), current);
  }

  /** The cycles recorded by `_dfs(start, current)` entered with the current `path`. */
  function Search(g: Graph, start: string, path: seq<string>, current: string): seq<seq<string>>
    requires current in Nodes(g) && current !in path
    decreases |Nodes(g) - Elems(path)|, 1, 0
  {
    Push(g, path, current);
    Visit(g, start, path + [current], Adj(g, current))
  }

  /** The cycles recorded while the loop runs over `neighbors` with `path` on the stack. */
  function Visit(g: Graph, start: string, path: seq<string>, neighbors: seq<string>): seq<seq<string>>
    requires forall n :: n in neighbors ==> n in Nodes(g)
    decreases |Nodes(g) - Elems(path)|, 2, |neighbors|
  {
    if neighbors == [] then []
    else
      var n := neighbors[|neighbors| - 1];
      Visit(g, start, path, neighbors[..|neighbors| - 1]) + Found(g, start, path, n)
  }

  /** What one neighbour adds: the closed cycle when it is the start, its own search when it is off the path. */
  function Found(g: Graph, start: string, path: seq<string>, n: string): seq<seq<string>>
    requires n in Nodes(g)
    decreases |Nodes(g) - Elems(path)|, 2, 0
  {
    if n == start then [path + [start]]
    else if n !in path then Search(g, start, path, n)
    else []
  }

  lemma VisitStep(g: Graph, start: string, path: seq<string>, neighbors: seq<string>, i: nat)
    requires forall n :: n in neighbors ==> n in Nodes(g)
    requires i < |neighbors|
    ensures forall n :: n in neighbors[..i + 1] ==> n in Nodes(g)
    ensures Visit(g, start, path, neighbors[..i + 1]) ==
      Visit(g, start, path, neighbors[..i]) + Found(g, start, path, neighbors[i])
  {
    assert neighbors[..i + 1][..i] == neighbors[..i];
  }

  /** The mutable state `_dfs` works on: the visited set, the path and the list of cycles found. */
  class CycleSearch {
    const graph: Graph
    var visited: set<string>
    var path: seq<string>
    var cycles: seq<seq<string>>

    constructor (g: Graph)
      ensures graph == g && visited == {} && path == [] && cycles == []
    {
      graph := g;
      visited := {};
      path := [];
      cycles := [];
    }

    /** `_dfs`: the path and the visited set are restored on return and the new cycles are appended. */
    method Dfs(start: string, current: string)
      requires current in Nodes(graph) && current !in path
      requires visited == Elems(path)
      modifies this
      ensures path == old(path) && visited == old(visited)
      ensures cycles == old(cycles) + Search(graph, start, old(path), current)
      decreases |Nodes(graph) - visited|, 0
    {
      Push(graph, path, current);
      visited := visited + {current};
      path := path + [current];
      Explore(start, Adj(graph, current));
      path := path[..|path| - 1];
      visited := visited - {current};
    }

    /** The loop of `_dfs` over the neighbours of the node on top of the stack. */
    method Explore(start: string, neighbors: seq<string>)
      requires visited == Elems(path)
      requires forall n :: n in neighbors ==> n in Nodes(graph)
      modifies this
      ensures path == old(path) && visited == old(visited)
      ensures cycles == old(cycles) + Visit(graph, start, path, neighbors)
      decreases |Nodes(graph) - visited|, 2
    {
      var i := 0;
      while i < |neighbors|
        invariant 0 <= i <= |neighbors|
        invariant path == old(path) && visited == old(visited)
        invariant cycles == old(cycles) + Visit(graph, start, path, neighbors[..i])
      {
        VisitStep(graph, start, path, neighbors, i);
        ghost var before := cycles;
        Step(start, neighbors[i]);
        assert cycles == before + Found(graph, start, path, neighbors[i]);
        i := i + 1;
      }
      assert neighbors[..i] == neighbors;
    }

    /** One neighbour: a way back to the start closes a cycle, an unvisited node is searched. */
    method Step(start: string, n: string)
      requires visited == Elems(path) && n in Nodes(graph)
      modifies this
      ensures path == old(path) && visited == old(visited)
      ensures cycles == old(cycles) + Found(graph, start, path, n)
      decreases |Nodes(graph) - visited|, 1
    {
      if n == start {
        cycles := cycles + [path + [start]];
      } else if n !in visited {
        Dfs(start, n);
      }
    }
  }

  /** A recorded cycle: it starts and ends at `start`, follows edges, and repeats no node but the closing one. */
  predicate IsCycleFrom(g: Graph, start: string, c: seq<string>) {
    |c| >= 2 && c[0] == start && c[|c| - 1] == start
    && (forall k :: 0 <= k < |c| - 1 ==> c[k + 1] in Adj(g, c[k]))
    && Distinct(c[..|c| - 1])
  }

  /** A cycle through an analysed file. */
  predicate IsCycleOf(g: Graph, c: seq<string>) {
    |c| >= 2 && c[0] in g && IsCycleFrom(g, c[0], c)
  }

  /** A path on the search stack: from `start`, along edges, without repeats. */
  predicate IsPathFrom(g: Graph, start: string, p: seq<string>) {
    |p| >= 1 && p[0] == start
    && (forall k :: 0 <= k < |p| - 1 ==> p[k + 1] in Adj(g, p[k]))
    && Distinct(p)
  }

  lemma ExtendPath(g: Graph, start: string, p: seq<string>, n: string)
    requires IsPathFrom(g, start, p) && n in Adj(g, p[|p| - 1]) && n !in p
    ensures IsPathFrom(g, start, p + [n])
  {
    var q := p + [n];
    assert forall k :: 0 <= k < |p| ==> q[k] == p[k];
  }

  lemma ClosePath(g: Graph, start: string, p: seq<string>)
    requires IsPathFrom(g, start, p) && start in Adj(g, p[|p| - 1])
    ensures IsCycleFrom(g, start, p + [start])
  {
    var c := p + [start];
    assert c[..|c| - 1] == p;
    assert forall k :: 0 <= k < |p| ==> c[k] == p[k];
  }

  /** The stack the search is entered with: empty at the start node, or a path ending next to `current`. */
  predicate Entry(g: Graph, start: string, path: seq<string>, current: string) {
    (path == [] && current == start)
    || (IsPathFrom(g, start, path) && current in Adj(g, path[|path| - 1]))
  }

  lemma {:induction false} SearchCycles(g: Graph, start: string, path: seq<string>, current: string)
    requires current in Nodes(g) && current !in path
    requires Entry(g, start, path, current)
    ensures forall c :: c in Search(g, start, path, current) ==> IsCycleFrom(g, start, c)
    decreases |Nodes(g) - Elems(path)|, 1, 0
  {
    Push(g, path, current);
    if path == [] {
      assert path + [current] == [start];
    } else {
      ExtendPath(g, start, path, current);
    }
    VisitCycles(g, start, path + [current], Adj(g, current));
  }

  lemma {:induction false} VisitCycles(g: Graph, start: string, path: seq<string>, neighbors: seq<string>)
    requires forall n :: n in neighbors ==> n in Nodes(g)
    requires IsPathFrom(g, start, path) && forall n :: n in neighbors ==> n in Adj(g, path[|path| - 1])
    ensures forall c :: c in Visit(g, start, path, neighbors) ==> IsCycleFrom(g, start, c)
    decreases |Nodes(g) - Elems(path)|, 2, |neighbors|
  {
    if neighbors != [] {
      var n := neighbors[|neighbors| - 1];
      var init := neighbors[..|neighbors| - 1];
      assert n in neighbors;
      assert forall x :: x in init ==> x in neighbors;
      VisitCycles(g, start, path, init);
      if n == start {
        ClosePath(g, start, path);
      } else if n !in path {
        SearchCycles(g, start, path, n);
      }
    }
  }

  // ---------------------------------------------------------------------
  // Circular dependencies
  // ---------------------------------------------------------------------

  /** All cycles found by searching from the first `k` files in order. */
  function AllCycles(g: Graph, order: seq<string>, k: nat): seq<seq<string>>
    requires k <= |order| && forall f :: f in order ==> f in g
  {
    if k == 0 then [] else AllCycles(g, order, k - 1) + Search(g, order[k - 1], [], order[k - 1])
  }

  /** `tuple(sorted(cycle))`: two cycles have the same sorted tuple exactly when they have the same multiset of nodes. */
  function Signature(c: seq<string>): multiset<string> {
    multiset(c)
  }

  method UniqueCycles(found: seq<seq<string>>) returns (unique: seq<seq<string>>)
    ensures unique == KeepFirst(Signature, {}, found)
  {
    var seen: set<multiset<string>> := {};
    unique := [];
    var i := 0;
    while i < |found|
      invariant 0 <= i <= |found|
      invariant unique + KeepFirst(Signature, seen, found[i..]) == KeepFirst(Signature, {}, found)
    {
      KeepFirstStep(Signature, seen, found, i);
      var canonical := Signature(found[i]);
      if canonical !in seen {
        unique := unique + [found[i]];
        seen := seen + {canonical};
      }
      i := i + 1;
    }
  }

  /** The loop of `find_circular_dependencies` starting a search from every file in order. */
  method SearchAll(g: Graph, order: seq<string>) returns (found: seq<seq<string>>)
    requires forall f :: f in order ==> f in g
    ensures found == AllCycles(g, order, |order|)
  {
    var search := new CycleSearch(g);
    assert Elems([]) == {};
    var k := 0;
    while k < |order|
      invariant 0 <= k <= |order|
      invariant search.graph == g && search.path == [] && search.visited == {}
      invariant search.cycles == AllCycles(g, order, k)
      modifies search
    {
      var node := order[k];
      search.Dfs(node, node);
      k := k + 1;
    }
    found := search.cycles;
  }

  /** `find_circular_dependencies` on the graph built from `m`: a search from every file, then deduplication. */
  method CircularDependencies(m: ImportsMap, targets: seq<string>) returns (g: Graph, unique: seq<seq<string>>)
    requires WellKeyed(m)
    ensures IsDependencyGraph(g, m, targets)
    ensures unique == KeepFirst(Signature, {}, AllCycles(g, m.order, |m.order|))
  {
    g := BuildGraph(m, targets);
    assert forall f :: f in m.order ==> f in g by {
      assert forall f :: f in m.order ==> f in Elems(m.order);
    }
    var found := SearchAll(g, m.order);
    unique := UniqueCycles(found);
  }

  /** Every reported cycle is a cycle of the graph through an analysed file, and no two cover the same files. */
  lemma CircularDependenciesSound(g: Graph, order: seq<string>)
    requires forall f :: f in order ==> f in g
    ensures var unique := KeepFirst(Signature, {}, AllCycles(g, order, |order|));
      IsSubsequence(unique, AllCycles(g, order, |order|))
      && (forall c :: c in unique ==> IsCycleOf(g, c))
      && (forall i, j :: 0 <= i < j < |unique| ==> multiset(unique[i]) != multiset(unique[j]))
  {
    var all := AllCycles(g, order, |order|);
    KeepFirstIsSubsequence(Signature, {}, all);
    KeepFirstDistinct(Signature, {}, all);
    AllCyclesAreCycles(g, order, |order|);
    SubsequenceMembers(KeepFirst(Signature, {}, all), all);
  }

  lemma {:induction false} AllCyclesAreCycles(g: Graph, order: seq<string>, k: nat)
    requires k <= |order| && forall f :: f in order ==> f in g
    ensures forall c :: c in AllCycles(g, order, k) ==> IsCycleOf(g, c)
  {
    if k > 0 {
      AllCyclesAreCycles(g, order, k - 1);
      SearchCycles(g, order[k - 1], [], order[k - 1]);
    }
  }

  lemma {:induction false} SubsequenceMembers<T>(a: seq<T>, b: seq<T>)
    requires IsSubsequence(a, b)
    ensures forall x :: x in a ==> x in b
    decreases |b|
  {
    if a != [] && b != [] {
      if a[0] == b[0] {
        SubsequenceMembers(a[1..], b[1..]);
        assert forall x :: x in a ==> x == a[0] || x in a[1..];
      } else {
        SubsequenceMembers(a, b[1..]);
      }
    }
  }

  function CyclesValue(cs: seq<seq<string>>): Value {
    JArr(seq(|cs|, i requires 0 <= i < |cs| => StrList(cs[i])))
  }

  // ---------------------------------------------------------------------
  // Routing an analysis task
  // ---------------------------------------------------------------------

  /** `task.get("target_files", [])`. */
  function Targets(task: Dict): Value {
    GetOr(task, "target_files", JArr([]))
  }

  /** `len(target_files)` in the log line: lists, strings and dicts have a length, anything else raises `TypeError`. */
  function LengthError(v: Value): (r: Option<string>)
    ensures r.None? <==> v.JArr? || v.JStr? || v.JObj?
  {
    if v.JArr? || v.JStr? || v.JObj? then None
    else Some("TypeError: " + NoLenMessage(v))
  }

  /**
   * Iterating `target_files` inside an analysis: a list of strings gives them
   * in order, a string gives its characters, an empty dict nothing; a
   * non-string item makes the path join raise `TypeError`.
   */
  function TargetFiles(v: Value): (r: Result<seq<string>>)
    ensures v.JArr? ==> (r.Ok? <==> forall x :: x in v.items ==> x.JStr?)
    ensures v.JArr? && r.Ok? ==> |r.value| == |v.items| && forall i :: 0 <= i < |v.items| ==> v.items[i] == JStr(r.value[i])
    ensures v.JStr? ==> r.Ok? && |r.value| == |v.s| && forall i :: 0 <= i < |v.s| ==> r.value[i] == [v.s[i]]
  {
    match v
    case JArr(items) =>
      if forall x :: x in items ==> x.JStr? then
        assert forall i :: 0 <= i < |items| ==> items[i] in items;
        Ok(seq(|items|, i requires 0 <= i < |items| => items[i].s))
      else Raise("TypeError: expected str, bytes or os.PathLike object")
    case JStr(s) => Ok(seq(|s|, i requires 0 <= i < |s| => [s[i]]))
    case JObj(m) => if m == map[] then Ok([]) else Raise("TypeError: the keys of a dict are iterated in an order the model does not keep")
    case _ => Raise("TypeError: target files are not iterable")
  }

  const UnsupportedPrefix: string := "Тип аналізу залежностей '"
  const UnsupportedSuffix: string := "' не підтримується"

  predicate IsAnalysis(task: Dict, analysisType: string) {
    Get(task, "analysis_type") == JStr(analysisType)
  }

  predicate Supported(task: Dict) {
    IsAnalysis(task, "module_dependencies") || IsAnalysis(task, "import_graph")
    || IsAnalysis(task, "circular_dependencies")
  }

  /**
   * `handle_task`: logs the number of targets, then runs one of the three
   * analyses or answers with an error; only the analyses iterate the targets.
   */
  method HandleTask(task: Dict, present: string -> bool, extract: string -> Result<seq<string>>)
    returns (r: Result<Dict>)
    ensures LengthError(Targets(task)).Some? ==> r == Raise(LengthError(Targets(task)).value)
    ensures LengthError(Targets(task)).None? && !Supported(task) ==>
      r == Ok(map["status" := JStr("error"),
                  "message" := JStr(UnsupportedPrefix + Show(Get(task, "analysis_type")) + UnsupportedSuffix)])
    ensures Supported(task) ==> (r.Raise? <==> LengthError(Targets(task)).Some? || TargetFiles(Targets(task)).Raise?)
    ensures r.Ok? && IsAnalysis(task, "module_dependencies") ==>
      var targets := TargetFiles(Targets(task)).value;
      var m := Collected(targets, present, extract);
      exists g :: IsDependencyGraph(g, m, targets) && r.value == DependencyReply(g, m)
    ensures r.Ok? && IsAnalysis(task, "import_graph") ==>
      var m := Collected(TargetFiles(Targets(task)).value, present, extract);
      r.value == ImportGraphReply(NodesOf(m.order), EdgesOf(m, |m.order|), |m.order|)
    ensures r.Ok? && IsAnalysis(task, "circular_dependencies") ==>
      var targets := TargetFiles(Targets(task)).value;
      var m := Collected(targets, present, extract);
      exists g :: IsDependencyGraph(g, m, targets) && (forall f :: f in m.order ==> f in g)
        && r.value == map["status" := JStr("success"),
                          "circular_dependencies" := CyclesValue(KeepFirst(Signature, {}, AllCycles(g, m.order, |m.order|))),
                          "files_analyzed" := JNum(|m.order|)]
  {
    var targetsValue := Targets(task);
    var lengthError := LengthError(targetsValue);
    if lengthError.Some? {
      return Raise(lengthError.value);
    }
    var analysisType := Get(task, "analysis_type");
    if !Supported(task) {
      return Ok(map["status" := JStr("error"),
                    "message" := JStr(UnsupportedPrefix + Show(analysisType) + UnsupportedSuffix)]);
    }
    var targetsOr := TargetFiles(targetsValue);
    if targetsOr.Raise? {
      return Raise(targetsOr.error);
    }
    var targets := targetsOr.value;
    var m := CollectImports(targets, present, extract);
    if analysisType == JStr("module_dependencies") {
      var g := BuildGraph(m, targets);
      r := Ok(DependencyReply(g, m));
    } else if analysisType == JStr("import_graph") {
      var nodes, edges := ImportGraph(m);
      r := Ok(ImportGraphReply(nodes, edges, |m.order|));
    } else {
      var g, unique := CircularDependencies(m, targets);
      assert forall f :: f in m.order ==> f in g by {
        assert forall f :: f in m.order ==> f in Elems(m.order);
      }
      r := Ok(map["status" := JStr("success"), "circular_dependencies" := CyclesValue(unique),
                  "files_analyzed" := JNum(|m.order|)]);
    }
  }
}
