/** The road network: segments, the adjacency dictionary built from them, and chains of segments. */
module RoadGraph {
  import opened Rounding

  datatype Region = Ireland | Uk | France

  datatype Point = Point(lat: real, lng: real)

  /** A coordinate pair rounded to four decimals, counted in ten-thousandths of a degree. */
  datatype Node = Node(lat: int, lng: int)

  type Km = x: real | 0.0 <= x witness 0.0

  function NodeKey(p: Point): (n: Node)
    ensures -0.00005 <= n.lat as real / 10000.0 - p.lat <= 0.00005
    ensures -0.00005 <= n.lng as real / 10000.0 - p.lng <= 0.00005
  {
    Node(RoundHalfEven(p.lat * 10000.0), RoundHalfEven(p.lng * 10000.0))
  }

  datatype SegmentEdge = SegmentEdge(segmentId: string, region: Region, start: Point, end: Point, distanceKm: Km)
  {
    function A(): Node { NodeKey(start) }

    function B(): Node { NodeKey(end) }

    predicate Touches(n: Node) { A() == n || B() == n }

    predicate Joins(u: Node, v: Node) { (A() == u && B() == v) || (A() == v && B() == u) }
  }

  datatype Link = Link(to: Node, edge: SegmentEdge)

  type Graph = map<Node, seq<Link>>

  // ---- The adjacency dictionary ----

  function LinksOf(e: SegmentEdge, n: Node): seq<Link> {
    (if e.A() == n then [Link(e.B(), e)] else []) + (if e.B() == n then [Link(e.A(), e)] else [])
  }

  /** The links of a node, in the order in which the edges are read. */
  function Links(edges: seq<SegmentEdge>, n: Node): seq<Link> {
    if edges == [] then [] else Links(edges[..|edges| - 1], n) + LinksOf(edges[|edges| - 1], n)
  }

  ghost predicate IsNode(edges: seq<SegmentEdge>, n: Node) {
    exists e :: e in edges && e.Touches(n)
  }

  ghost predicate IsGraphOf(graph: Graph, edges: seq<SegmentEdge>) {
    && (forall n :: n in graph <==> IsNode(edges, n))
    && (forall n :: n in graph ==> graph[n] == Links(edges, n))
  }

  /** `graph.setdefault(n, []).append(link)`. */
  function Appended(graph: Graph, n: Node, link: Link): Graph {
    graph[n := (if n in graph then graph[n] else []) + [link]]
  }

  /** The position kept for a node is the one written by the last edge that touches it. */
  ghost predicate IsPositionOf(edges: seq<SegmentEdge>, n: Node, p: Point) {
    exists i :: 0 <= i < |edges| && edges[i].Touches(n)
             && p == (if edges[i].B() == n then edges[i].end else edges[i].start)
             && (forall j :: i < j < |edges| ==> !edges[j].Touches(n))
  }

  ghost predicate PositionsOf(edges: seq<SegmentEdge>, positions: map<Node, Point>) {
    forall n :: (n in positions <==> IsNode(edges, n))
             && (n in positions ==> IsPositionOf(edges, n, positions[n]) && NodeKey(positions[n]) == n)
  }

  /** One turn of the loop over the segments. */
  method AddEdge(graph0: Graph, positions0: map<Node, Point>, edge: SegmentEdge, ghost edges: seq<SegmentEdge>)
    returns (graph: Graph, positions: map<Node, Point>)
    requires IsGraphOf(graph0, edges) && PositionsOf(edges, positions0)
    ensures IsGraphOf(graph, edges + [edge]) && PositionsOf(edges + [edge], positions)
  {
    GraphGrows(edges, edge, graph0);
    PositionsGrow(edges, edge, positions0);
    var a, b := edge.A(), edge.B();
    positions := positions0[a := edge.start];
    positions := positions[b := edge.end];
    graph := Appended(graph0, a, Link(b, edge));
    graph := Appended(graph, b, Link(a, edge));
  }

  method BuildGraph(edges: seq<SegmentEdge>) returns (graph: Graph, positions: map<Node, Point>)
    ensures IsGraphOf(graph, edges) && PositionsOf(edges, positions)
  {
    graph, positions := map[], map[];
    for i := 0 to |edges|
      invariant IsGraphOf(graph, edges[..i]) && PositionsOf(edges[..i], positions)
    {
      graph, positions := AddEdge(graph, positions, edges[i], edges[..i]);
      assert edges[..i + 1] == edges[..i] + [edges[i]];
    }
    assert edges[..|edges|] == edges;
  }

  lemma NodeGrows(edges: seq<SegmentEdge>, e: SegmentEdge, n: Node)
    ensures IsNode(edges + [e], n) <==> IsNode(edges, n) || e.Touches(n)
  {
    if e.Touches(n) { assert e in edges + [e]; }
    if IsNode(edges, n) {
      var f :| f in edges && f.Touches(n);
      assert f in edges + [e];
    }
  }

  lemma NoLinks(edges: seq<SegmentEdge>, n: Node)
    requires !IsNode(edges, n)
    ensures Links(edges, n) == []
  {
    if edges != [] {
      var last := edges[|edges| - 1];
      assert last in edges;
      assert !IsNode(edges[..|edges| - 1], n);
      NoLinks(edges[..|edges| - 1], n);
    }
  }

  lemma LinksOfLongerList(edges: seq<SegmentEdge>, e: SegmentEdge, n: Node)
    ensures Links(edges + [e], n) == Links(edges, n) + LinksOf(e, n)
  {
    assert (edges + [e])[..|edges|] == edges;
  }

  lemma AppendedBothWays(before: Graph, e: SegmentEdge, n: Node)
    ensures var after := Appended(Appended(before, e.A(), Link(e.B(), e)), e.B(), Link(e.A(), e));
            && (n in after <==> n in before || e.Touches(n))
            && (n in after ==> after[n] == (if n in before then before[n] else []) + LinksOf(e, n))
  {}

  lemma LinksGrow(edges: seq<SegmentEdge>, e: SegmentEdge, before: Graph, n: Node)
    requires IsGraphOf(before, edges)
    ensures var after := Appended(Appended(before, e.A(), Link(e.B(), e)), e.B(), Link(e.A(), e));
            && (n in after <==> IsNode(edges + [e], n))
            && (n in after ==> after[n] == Links(edges + [e], n))
  {
    AppendedBothWays(before, e, n);
    LinksOfLongerList(edges, e, n);
    NodeGrows(edges, e, n);
    if n !in before { NoLinks(edges, n); }
  }

  lemma GraphGrows(edges: seq<SegmentEdge>, e: SegmentEdge, before: Graph)
    requires IsGraphOf(before, edges)
    ensures IsGraphOf(Appended(Appended(before, e.A(), Link(e.B(), e)), e.B(), Link(e.A(), e)), edges + [e])
  {
    forall n { LinksGrow(edges, e, before, n); }
  }

  lemma PositionsGrow(edges: seq<SegmentEdge>, e: SegmentEdge, before: map<Node, Point>)
    requires PositionsOf(edges, before)
    ensures PositionsOf(edges + [e], before[e.A() := e.start][e.B() := e.end])
  {
    forall n { PositionGrows(edges, e, before, n); }
  }

  lemma PositionGrows(edges: seq<SegmentEdge>, e: SegmentEdge, before: map<Node, Point>, n: Node)
    requires PositionsOf(edges, before)
    ensures var after := before[e.A() := e.start][e.B() := e.end];
            && (n in after <==> IsNode(edges + [e], n))
            && (n in after ==> IsPositionOf(edges + [e], n, after[n]) && NodeKey(after[n]) == n)
  {
    NodeGrows(edges, e, n);
    if e.Touches(n) {
      LastEdgePositions(edges, e, n);
    } else if n in before {
      EarlierEdgePositions(edges, e, n, before[n]);
    }
  }

  lemma LastEdgePositions(edges: seq<SegmentEdge>, e: SegmentEdge, n: Node)
    requires e.Touches(n)
    ensures IsPositionOf(edges + [e], n, if e.B() == n then e.end else e.start)
  {
    assert (edges + [e])[|edges|] == e;
  }

  lemma EarlierEdgePositions(edges: seq<SegmentEdge>, e: SegmentEdge, n: Node, p: Point)
    requires !e.Touches(n) && IsPositionOf(edges, n, p)
    ensures IsPositionOf(edges + [e], n, p)
  {
    var i :| 0 <= i < |edges| && edges[i].Touches(n)
          && p == (if edges[i].B() == n then edges[i].end else edges[i].start)
          && (forall j :: i < j < |edges| ==> !edges[j].Touches(n));
    assert (edges + [e])[i].Touches(n);
  }

  /** An adjacency entry exists exactly for an edge that joins the two nodes. */
  lemma {:induction false} LinkIffJoins(edges: seq<SegmentEdge>, n: Node, l: Link)
    ensures l in Links(edges, n) <==> l.edge in edges && l.edge.Joins(n, l.to)
  {
    if edges != [] {
      var init, last := edges[..|edges| - 1], edges[|edges| - 1];
      LinkIffJoins(init, n, l);
      assert edges == init + [last];
      assert l in LinksOf(last, n) <==> l.edge == last && last.Joins(n, l.to);
    }
  }

  lemma LinksStayInside(graph: Graph, edges: seq<SegmentEdge>, n: Node)
    requires IsGraphOf(graph, edges) && n in graph
    ensures forall l :: l in graph[n] ==> l.to in graph
  {
    forall l | l in graph[n]
      ensures l.to in graph
    {
      LinkIffJoins(edges, n, l);
      assert l.edge.Touches(l.to);
    }
  }

  // ---- Chains ----

  /** A connected chain of known segments from `s` to `t`, each walked in either direction. */
  ghost predicate Chain(edges: seq<SegmentEdge>, p: seq<SegmentEdge>, s: Node, t: Node)
    decreases |p|
  {
    if p == [] then s == t
    else p[0] in edges
         && ((p[0].A() == s && Chain(edges, p[1..], p[0].B(), t))
              || (p[0].B() == s && Chain(edges, p[1..], p[0].A(), t)))
  }

  function Total(p: seq<SegmentEdge>): Km {
    if p == [] then 0.0 else p[0].distanceKm + Total(p[1..])
  }

  ghost predicate Reachable(edges: seq<SegmentEdge>, s: Node, t: Node) {
    exists p :: Chain(edges, p, s, t)
  }

  ghost predicate Shortest(edges: seq<SegmentEdge>, path: seq<SegmentEdge>, s: Node, t: Node) {
    Chain(edges, path, s, t) && forall p :: Chain(edges, p, s, t) ==> Total(path) <= Total(p)
  }

  /** The one-segment route used when both ends snap to the same node. */
  ghost predicate NearestAdjacent(edges: seq<SegmentEdge>, path: seq<SegmentEdge>, n: Node) {
    |path| == 1 && path[0] in edges && path[0].Touches(n)
    && forall e :: e in edges && e.Touches(n) ==> path[0].distanceKm <= e.distanceKm
  }

  predicate Distinct<T(==)>(s: seq<T>) {
    forall i, j :: 0 <= i < j < |s| ==> s[i] != s[j]
  }

  lemma {:induction false} ChainEndsAreNodes(edges: seq<SegmentEdge>, p: seq<SegmentEdge>, s: Node, t: Node)
    requires Chain(edges, p, s, t) && p != []
    ensures IsNode(edges, s) && IsNode(edges, t)
    decreases |p|
  {
    assert p[0].Touches(s);
    var next := if p[0].A() == s && Chain(edges, p[1..], p[0].B(), t) then p[0].B() else p[0].A();
    assert p[0].Touches(next);
    if |p| > 1 { ChainEndsAreNodes(edges, p[1..], next, t); }
  }

  // ---- Degrees ----

  /** Adjacency entries of the listed nodes, in total. */
  ghost function Degrees(graph: Graph, nodes: seq<Node>): nat
    requires forall n :: n in nodes ==> n in graph
  {
    if nodes == [] then 0 else Degrees(graph, nodes[..|nodes| - 1]) + |graph[nodes[|nodes| - 1]]|
  }

  lemma DegreesGrow(graph: Graph, nodes: seq<Node>, n: Node)
    requires n in graph && forall m :: m in nodes ==> m in graph
    ensures forall m :: m in nodes + [n] ==> m in graph
    ensures Degrees(graph, nodes + [n]) == Degrees(graph, nodes) + |graph[n]|
  {
    assert (nodes + [n])[..|nodes|] == nodes;
  }

  /** Entries that one edge contributes to the listed nodes. */
  ghost function Share(e: SegmentEdge, nodes: seq<Node>): nat {
    if nodes == [] then 0 else Share(e, nodes[..|nodes| - 1]) + |LinksOf(e, nodes[|nodes| - 1])|
  }

  lemma {:induction false} ShareOfDistinct(e: SegmentEdge, nodes: seq<Node>)
    requires Distinct(nodes)
    ensures Share(e, nodes) == (if e.A() in nodes then 1 else 0) + (if e.B() in nodes then 1 else 0)
  {
    if nodes != [] {
      var init, last := nodes[..|nodes| - 1], nodes[|nodes| - 1];
      ShareOfDistinct(e, init);
      assert nodes == init + [last];
    }
  }

  ghost function LinkCount(edges: seq<SegmentEdge>, nodes: seq<Node>): nat {
    if nodes == [] then 0 else LinkCount(edges, nodes[..|nodes| - 1]) + |Links(edges, nodes[|nodes| - 1])|
  }

  lemma {:induction false} LinkCountGrows(edges: seq<SegmentEdge>, nodes: seq<Node>)
    requires edges != []
    ensures LinkCount(edges, nodes) == LinkCount(edges[..|edges| - 1], nodes) + Share(edges[|edges| - 1], nodes)
  {
    if nodes != [] { LinkCountGrows(edges, nodes[..|nodes| - 1]); }
  }

  lemma {:induction false} LinkCountBound(edges: seq<SegmentEdge>, nodes: seq<Node>)
    requires Distinct(nodes)
    ensures LinkCount(edges, nodes) <= 2 * |edges|
  {
    if edges == [] {
      NothingToCount(nodes);
    } else {
      LinkCountBound(edges[..|edges| - 1], nodes);
      LinkCountGrows(edges, nodes);
      ShareOfDistinct(edges[|edges| - 1], nodes);
    }
  }

  lemma NothingToCount(nodes: seq<Node>)
    ensures LinkCount([], nodes) == 0
  {}

  /** However many distinct nodes are expanded, they see at most two entries per edge. */
  lemma {:induction false} DegreesBound(graph: Graph, edges: seq<SegmentEdge>, nodes: seq<Node>)
    requires IsGraphOf(graph, edges) && Distinct(nodes) && forall n :: n in nodes ==> n in graph
    ensures Degrees(graph, nodes) <= 2 * |edges|
  {
    DegreesAreLinks(graph, edges, nodes);
    LinkCountBound(edges, nodes);
  }

  lemma {:induction false} DegreesAreLinks(graph: Graph, edges: seq<SegmentEdge>, nodes: seq<Node>)
    requires IsGraphOf(graph, edges) && forall n :: n in nodes ==> n in graph
    ensures Degrees(graph, nodes) == LinkCount(edges, nodes)
  {
    if nodes != [] { DegreesAreLinks(graph, edges, nodes[..|nodes| - 1]); }
  }
}
