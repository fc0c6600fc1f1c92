/** The binding graph: producers, consumers, cycles and the order in which resources can be removed. */
module Bindings {
  import opened Results
  import opened Identifiers

  datatype ResourceKind =
    | Package | Component | Runtime | ManagedService | ServiceResource | Endpoint
    | Application | Process | Schedule | Artifact | Certificate | PipelineResource

  datatype ResourceRef = ResourceRef(kind: ResourceKind, id: string)

  datatype Binding = Binding(id: string, producer: ResourceRef, output: string, consumer: ResourceRef, input: string)

  datatype GraphError = InvalidBinding | DuplicateId | DuplicateInput | DependencyCycle

  type Graph = seq<Binding>

  predicate ValidBinding(b: Binding) {
    && IsResourceId(b.id)
    && IsResourceId(b.producer.id) && IsResourceId(b.consumer.id)
    && IsResourceId(b.output) && IsResourceId(b.input)
    && b.producer != b.consumer
  }

  // ----- paths and cycles -----

  predicate Edge(g: Graph, a: ResourceRef, b: ResourceRef) {
    exists i :: 0 <= i < |g| && g[i].producer == a && g[i].consumer == b
  }

  /** Each resource of the path consumes from the one before it. */
  predicate IsPath(g: Graph, p: seq<ResourceRef>) {
    forall i :: 0 < i < |p| ==> Edge(g, p[i - 1], p[i])
  }

  /** A path of one or more edges from a resource to itself. */
  predicate IsCycle(g: Graph, p: seq<ResourceRef>) {
    |p| >= 2 && p[0] == p[|p| - 1] && IsPath(g, p)
  }

  ghost predicate Acyclic(g: Graph) {
    forall p :: !IsCycle(g, p)
  }

  predicate DistinctIds(g: Graph) {
    forall i, j :: 0 <= i < j < |g| ==> g[i].id != g[j].id
  }

  predicate DistinctInputs(g: Graph) {
    forall i, j :: 0 <= i < j < |g| ==> g[i].consumer != g[j].consumer || g[i].input != g[j].input
  }

  ghost predicate ValidGraph(g: Graph) {
    && (forall i :: 0 <= i < |g| ==> ValidBinding(g[i]))
    && DistinctIds(g) && DistinctInputs(g) && Acyclic(g)
  }

  function Nodes(g: Graph): set<ResourceRef> {
    (set b | b in g :: b.producer) + (set b | b in g :: b.consumer)
  }

  // ----- depth-first search -----

  type Edges = map<ResourceRef, seq<ResourceRef>>

  /** The adjacency map `reject_cycles` builds holds exactly the edges of the graph. */
  predicate Represents(edges: Edges, g: Graph) {
    && (forall a, b :: a in edges && b in edges[a] ==> Edge(g, a, b))
    && (forall i :: 0 <= i < |g| ==> g[i].producer in edges && g[i].consumer in edges[g[i].producer])
  }

  method BuildEdges(g: Graph) returns (edges: Edges)
    ensures Represents(edges, g)
    ensures forall a :: a in edges ==> exists i :: 0 <= i < |g| && g[i].producer == a
  {
    edges := map[];
    for i := 0 to |g|
      invariant forall a, b :: a in edges && b in edges[a] ==>
        exists k :: 0 <= k < i && g[k].producer == a && g[k].consumer == b
      invariant forall a :: a in edges ==> exists k :: 0 <= k < i && g[k].producer == a
      invariant forall k :: 0 <= k < i ==> g[k].producer in edges && g[k].consumer in edges[g[k].producer]
    {
      var a, b := g[i].producer, g[i].consumer;
      var next := if a in edges then edges[a] else [];
      edges := edges[a := next + [b]];
    }
  }

  /** `has_cycle` with its two shared sets. */
  class Search {
    const edges: Edges
    ghost const graph: Graph
    var visiting: set<ResourceRef>
    var visited: set<ResourceRef>

    constructor (edges: Edges, ghost graph: Graph)
      requires Represents(edges, graph)
      ensures this.edges == edges && this.graph == graph
      ensures visiting == {} && visited == {}
      ensures Valid([])
    {
      this.edges, this.graph := edges, graph;
      visiting, visited := {}, {};
    }

    /** Every successor of a visited resource is visited, and no cycle starts at one. */
    ghost predicate Explored()
      reads this
    {
      && (forall a, b :: a in visited && Edge(graph, a, b) ==> b in visited)
      && (forall p :: IsCycle(graph, p) ==> p[0] !in visited)
    }

    /** `visiting` holds exactly the resources on the current path. */
    ghost predicate Valid(path: seq<ResourceRef>)
      reads this
    {
      && Represents(edges, graph)
      && IsPath(graph, path)
      && visiting == (set a | a in path)
      && visiting !! visited
      && Explored()
    }

    /** A path that stays closed in `visited` never leaves it. */
    lemma {:induction false} PathStaysVisited(p: seq<ResourceRef>)
      requires Explored() && IsPath(graph, p) && |p| > 0 && p[0] in visited
      ensures p[|p| - 1] in visited
      decreases |p|
    {
      if |p| > 1 {
        var front := p[..|p| - 1];
        PathStaysVisited(front);
        assert Edge(graph, p[|p| - 2], p[|p| - 1]);
      }
    }

    /** All successors explored without success: no cycle starts at `node`. */
    lemma NodeIsExplored(node: ResourceRef)
      requires Explored() && node !in visited
      requires forall b :: Edge(graph, node, b) ==> b in visited
      ensures forall p :: IsCycle(graph, p) ==> p[0] != node
    {
      forall p | IsCycle(graph, p)
        ensures p[0] != node
      {
        if p[0] == node {
          assert Edge(graph, p[0], p[1]);
          PathStaysVisited(p[1..]);
        }
      }
    }

    /** Meeting a resource of the current path again closes a cycle. */
    lemma CycleFound(path: seq<ResourceRef>, node: ResourceRef) returns (p: seq<ResourceRef>)
      requires Valid(path) && node in visiting && |path| > 0 && Edge(graph, path[|path| - 1], node)
      ensures IsCycle(graph, p)
    {
      var k :| 0 <= k < |path| && path[k] == node;
      p := path[k..] + [node];
      forall i | 0 < i < |p|
        ensures Edge(graph, p[i - 1], p[i])
      {
        if i < |path| - k { assert Edge(graph, path[k + i - 1], path[k + i]); }
      }
    }

    method HasCycle(node: ResourceRef, ghost path: seq<ResourceRef>, ghost unseen: set<ResourceRef>)
      returns (found: bool)
      requires Valid(path)
      requires |path| > 0 ==> Edge(graph, path[|path| - 1], node)
      requires Nodes(graph) <= unseen + visiting && node in Nodes(graph) && unseen !! visiting
      modifies this
      ensures found ==> exists p :: IsCycle(graph, p)
      ensures !found ==> Valid(path) && visiting == old(visiting) && old(visited) + {node} <= visited
      decreases unseen
    {
      if node in visited {
        return false;
      }
      if node in visiting {
        ghost var p := CycleFound(path, node);
        return true;
      }
      visiting := visiting + {node};
      ghost var longer := path + [node];
      assert IsPath(graph, longer);
      if node in edges {
        var next := edges[node];
        for i := 0 to |next|
          invariant Valid(longer) && visiting == old(visiting) + {node} && old(visited) <= visited
          invariant forall k :: 0 <= k < i ==> next[k] in visited
        {
          assert Edge(graph, node, next[i]);
          EdgeEnds(graph, node, next[i]);
          var inner := HasCycle(next[i], longer, unseen - {node});
          if inner {
            return true;
          }
        }
      }
      assert forall b :: Edge(graph, node, b) ==> b in visited;
      NodeIsExplored(node);
      visiting := visiting - {node};
      visited := visited + {node};
      found := false;
    }
  }

  lemma EdgeEnds(g: Graph, a: ResourceRef, b: ResourceRef)
    requires Edge(g, a, b)
    ensures a in Nodes(g) && b in Nodes(g)
  {
    var i :| 0 <= i < |g| && g[i].producer == a && g[i].consumer == b;
    assert g[i] in g;
  }

  lemma CycleStartsAtKey(g: Graph, edges: Edges, p: seq<ResourceRef>)
    requires Represents(edges, g) && IsCycle(g, p)
    ensures p[0] in edges
  {
    assert Edge(g, p[0], p[1]);
  }

  /** Succeeds exactly when no resource reaches itself; the order in which the keys are tried does not matter. */
  method RejectCycles(g: Graph) returns (r: Outcome<GraphError>)
    ensures r.Pass? <==> Acyclic(g)
    ensures r.Fail? ==> r.error == DependencyCycle
  {
    var edges := BuildEdges(g);
    var search := new Search(edges, g);
    var todo := edges.Keys;
    while todo != {}
      invariant fresh(search) && search.edges == edges && search.graph == g
      invariant search.Valid([]) && search.visiting == {}
      invariant todo <= edges.Keys && edges.Keys - todo <= search.visited
      decreases todo
    {
      var node :| node in todo;
      todo := todo - {node};
      ghost var k :| 0 <= k < |g| && g[k].producer == node;
      assert g[k] in g;
      var found := search.HasCycle(node, [], Nodes(g));
      if found {
        return Fail(DependencyCycle);
      }
    }
    forall p
      ensures !IsCycle(g, p)
    {
      if IsCycle(g, p) { CycleStartsAtKey(g, edges, p); }
    }
    r := Pass;
  }

  /** `BindingGraph::validate`: the first binding at fault decides the error; cycles are looked for last. */
  method Validate(g: Graph) returns (r: Outcome<GraphError>)
    ensures r.Pass? <==> ValidGraph(g)
    ensures r == Fail(DependencyCycle) <==>
      (forall i :: 0 <= i < |g| ==> ValidBinding(g[i])) && DistinctIds(g) && DistinctInputs(g) && !Acyclic(g)
  {
    var ids: set<string>, inputs: set<(ResourceRef, string)> := {}, {};
    for i := 0 to |g|
      invariant ids == set k | 0 <= k < i :: g[k].id
      invariant inputs == set k | 0 <= k < i :: (g[k].consumer, g[k].input)
      invariant forall k :: 0 <= k < i ==> ValidBinding(g[k])
      invariant DistinctIds(g[..i]) && DistinctInputs(g[..i])
    {
      if !ValidBinding(g[i]) {
        return Fail(InvalidBinding);
      }
      if g[i].id in ids {
        return Fail(DuplicateId);
      }
      ids := ids + {g[i].id};
      if (g[i].consumer, g[i].input) in inputs {
        return Fail(DuplicateInput);
      }
      inputs := inputs + {(g[i].consumer, g[i].input)};
      assert g[..i + 1] == g[..i] + [g[i]];
    }
    assert g[..|g|] == g;
    r := RejectCycles(g);
  }

  // ----- removal -----

  function ConsumersOf(g: Graph, r: ResourceRef): (cs: seq<ResourceRef>)
    ensures forall c :: c in cs <==> Edge(g, r, c)
  {
    if g == [] then []
    else
      var rest := ConsumersOf(g[1..], r);
      assert forall c :: Edge(g[1..], r, c) ==> Edge(g, r, c) by {
        forall c | Edge(g[1..], r, c)
          ensures Edge(g, r, c)
        {
          var i :| 0 <= i < |g[1..]| && g[1..][i].producer == r && g[1..][i].consumer == c;
          assert g[i + 1].producer == r && g[i + 1].consumer == c;
        }
      }
      assert forall c :: Edge(g, r, c) ==> Edge(g[1..], r, c) || (g[0].producer == r && g[0].consumer == c) by {
        forall c | Edge(g, r, c)
          ensures Edge(g[1..], r, c) || (g[0].producer == r && g[0].consumer == c)
        {
          var i :| 0 <= i < |g| && g[i].producer == r && g[i].consumer == c;
          if i > 0 { assert g[1..][i - 1] == g[i]; }
        }
      }
      if g[0].producer == r then [g[0].consumer] + rest else rest
  }

  predicate AssertRemovable(g: Graph, r: ResourceRef) {
    ConsumersOf(g, r) == []
  }

  /** The graph once a removed resource no longer consumes anything. */
  function DropConsumer(g: Graph, r: ResourceRef): (h: Graph)
    ensures forall b :: b in h <==> b in g && b.consumer != r
    ensures |h| <= |g|
  {
    if g == [] then []
    else
      var rest := DropConsumer(g[1..], r);
      assert g == [g[0]] + g[1..];
      if g[0].consumer == r then rest else [g[0]] + rest
  }

  /** Removing the resources in this order passes `assert_removable` every time. */
  predicate TearsDown(g: Graph, order: seq<ResourceRef>)
    decreases |order|
  {
    order == [] || (AssertRemovable(g, order[0]) && TearsDown(DropConsumer(g, order[0]), order[1..]))
  }

  /** `h` keeps some bindings of `g`, in order. */
  predicate Subgraph(h: Graph, g: Graph) {
    if h == [] then true
    else g != [] && ((h[0] == g[0] && Subgraph(h[1..], g[1..])) || Subgraph(h, g[1..]))
  }

  lemma {:induction false} DropIsSubgraph(g: Graph, r: ResourceRef)
    ensures Subgraph(DropConsumer(g, r), g)
  {
    if g != [] {
      DropIsSubgraph(g[1..], r);
    }
  }

  lemma {:induction false} SubgraphMembers(h: Graph, g: Graph)
    requires Subgraph(h, g)
    ensures forall b :: b in h ==> b in g
    decreases |g|
  {
    if h != [] {
      assert g == [g[0]] + g[1..] && h == [h[0]] + h[1..];
      if h[0] == g[0] && Subgraph(h[1..], g[1..]) {
        SubgraphMembers(h[1..], g[1..]);
      } else {
        SubgraphMembers(h, g[1..]);
      }
    }
  }

  lemma {:induction false} SubgraphDistinct(h: Graph, g: Graph)
    requires Subgraph(h, g) && DistinctIds(g) && DistinctInputs(g)
    ensures DistinctIds(h) && DistinctInputs(h)
    decreases |g|
  {
    if h != [] {
      assert DistinctIds(g[1..]) && DistinctInputs(g[1..]);
      if h[0] == g[0] && Subgraph(h[1..], g[1..]) {
        SubgraphDistinct(h[1..], g[1..]);
        SubgraphMembers(h[1..], g[1..]);
        forall j | 1 <= j < |h|
          ensures h[0].id != h[j].id && (h[0].consumer != h[j].consumer || h[0].input != h[j].input)
        {
          assert h[j] == h[1..][j - 1] && h[j] in h[1..];
          var k :| 0 <= k < |g[1..]| && g[1..][k] == h[j];
          assert g[k + 1] == h[j];
        }
        forall i, j | 1 <= i < j < |h|
          ensures h[i].id != h[j].id && (h[i].consumer != h[j].consumer || h[i].input != h[j].input)
        {
          assert h[1..][i - 1] == h[i] && h[1..][j - 1] == h[j];
        }
      } else {
        SubgraphDistinct(h, g[1..]);
      }
    }
  }

  lemma SubgraphAcyclic(h: Graph, g: Graph)
    requires (forall b :: b in h ==> b in g) && Acyclic(g)
    ensures Acyclic(h)
  {
    forall p
      ensures !IsCycle(h, p)
    {
      if IsCycle(h, p) {
        forall i | 0 < i < |p|
          ensures Edge(g, p[i - 1], p[i])
        {
          assert Edge(h, p[i - 1], p[i]);
          var k :| 0 <= k < |h| && h[k].producer == p[i - 1] && h[k].consumer == p[i];
          assert h[k] in g;
        }
        assert IsCycle(g, p);
      }
    }
  }

  /** Dropping the bindings a resource consumes keeps the graph valid. */
  lemma DropKeepsValid(g: Graph, r: ResourceRef)
    requires ValidGraph(g)
    ensures ValidGraph(DropConsumer(g, r))
  {
    var h := DropConsumer(g, r);
    DropIsSubgraph(g, r);
    SubgraphDistinct(h, g);
    SubgraphAcyclic(h, g);
    forall i | 0 <= i < |h|
      ensures ValidBinding(h[i])
    {
      assert h[i] in g;
    }
  }

  /** An acyclic graph has a resource that produces for nobody among those still present. */
  lemma {:induction false} FindSink(g: Graph, nodes: set<ResourceRef>, path: seq<ResourceRef>)
    returns (sink: ResourceRef)
    requires Acyclic(g) && Nodes(g) <= nodes && |path| > 0
    requires IsPath(g, path) && (forall a :: a in path ==> a in nodes)
    ensures sink in nodes && AssertRemovable(g, sink)
    decreases nodes - (set a | a in path)
  {
    var last := path[|path| - 1];
    if AssertRemovable(g, last) {
      sink := last;
    } else {
      var c := ConsumersOf(g, last)[0];
      assert c in ConsumersOf(g, last);
      EdgeEnds(g, last, c);
      if c in path {
        var k :| 0 <= k < |path| && path[k] == c;
        var p := path[k..] + [c];
        forall i | 0 < i < |p|
          ensures Edge(g, p[i - 1], p[i])
        {
          if i < |path| - k { assert Edge(g, path[k + i - 1], path[k + i]); }
        }
        assert IsCycle(g, p);
      }
      var longer := path + [c];
      assert (set a | a in longer) == (set a | a in path) + {c};
      sink := FindSink(g, nodes, longer);
    }
  }

  /** Every resource is removed after those that consume from it. */
  predicate ConsumersFirst(g: Graph, order: seq<ResourceRef>) {
    forall i, j :: 0 <= i < |order| && 0 <= j < |order| && Edge(g, order[i], order[j]) ==> j < i
  }

  lemma SinkFirst(g: Graph, sink: ResourceRef, rest: seq<ResourceRef>)
    requires AssertRemovable(g, sink) && ConsumersFirst(DropConsumer(g, sink), rest) && sink !in rest
    ensures ConsumersFirst(g, [sink] + rest)
  {
    var h, order := DropConsumer(g, sink), [sink] + rest;
    assert forall c :: !Edge(g, sink, c) by {
      assert forall c :: c in ConsumersOf(g, sink) <==> Edge(g, sink, c);
    }
    forall i, j | 0 <= i < |order| && 0 <= j < |order| && Edge(g, order[i], order[j])
      ensures j < i
    {
      if j > 0 {
        var k :| 0 <= k < |g| && g[k].producer == order[i] && g[k].consumer == order[j];
        assert order[j] in rest && g[k] in h;
        var m :| 0 <= m < |h| && h[m] == g[k];
        assert Edge(h, rest[i - 1], rest[j - 1]);
      }
    }
  }

  /**
   Every validated graph can be torn down: some order of all resources, each after those that consume from it,
   passes the removal check throughout.
   */
  lemma {:induction false} TeardownExists(g: Graph, nodes: set<ResourceRef>) returns (order: seq<ResourceRef>)
    requires ValidGraph(g) && Nodes(g) <= nodes
    ensures TearsDown(g, order)
    ensures (forall a :: a in order <==> a in nodes) && |order| == |nodes|
    ensures ConsumersFirst(g, order)
    decreases |nodes|
  {
    if nodes == {} {
      order := [];
    } else {
      var any :| any in nodes;
      var sink := FindSink(g, nodes, [any]);
      var h := DropConsumer(g, sink);
      DropKeepsValid(g, sink);
      assert Nodes(h) <= nodes - {sink} by {
        forall b | b in h
          ensures b.producer != sink && b.consumer != sink && b.producer in nodes && b.consumer in nodes
        {
          var i :| 0 <= i < |g| && g[i] == b;
          assert g[i].producer == b.producer && g[i].consumer == b.consumer;
          assert Edge(g, b.producer, b.consumer);
          EdgeEnds(g, b.producer, b.consumer);
          assert b.consumer in ConsumersOf(g, b.producer);
        }
      }
      var rest := TeardownExists(h, nodes - {sink});
      order := [sink] + rest;
      assert order[1..] == rest;
      SinkFirst(g, sink, rest);
    }
  }
}
