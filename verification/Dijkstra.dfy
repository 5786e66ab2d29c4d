/** Dijkstra's search with a lazy-deletion heap and an early exit, and the walk back along the predecessors. */
module Dijkstra {
  import opened RoadGraph

  /** A heap entry; Python compares such tuples by distance first, then by the node's two coordinates. */
  datatype Entry = Entry(d: real, node: Node)

  predicate Before(x: Entry, y: Entry) {
    x.d < y.d || (x.d == y.d && (x.node.lat < y.node.lat || (x.node.lat == y.node.lat && x.node.lng <= y.node.lng)))
  }

  datatype Step = Step(from: Node, edge: SegmentEdge)

  // ---- The heap ----

  lemma BeforeIsTotalOrder(x: Entry, y: Entry, z: Entry)
    ensures Before(x, x) && (Before(x, y) || Before(y, x))
    ensures Before(x, y) && Before(y, z) ==> Before(x, z)
  {}

  lemma {:induction false} LeastExists(heap: multiset<Entry>) returns (least: Entry)
    requires heap != multiset{}
    ensures least in heap && forall y :: y in heap ==> Before(least, y)
    decreases |heap|
  {
    var x :| x in heap;
    var rest := heap - multiset{x};
    assert forall y :: y in heap ==> y == x || y in rest;
    BeforeIsTotalOrder(x, x, x);
    least := x;
    if rest != multiset{} {
      var z := LeastExists(rest);
      least := if Before(x, z) then x else z;
      forall y | y in heap
        ensures Before(least, y)
      {
        BeforeIsTotalOrder(x, z, y);
        BeforeIsTotalOrder(z, x, y);
      }
    }
  }

  /** `heapq.heappop`: any least entry leaves the heap. */
  method HeapPop(heap: multiset<Entry>) returns (least: Entry, rest: multiset<Entry>)
    requires heap != multiset{}
    ensures least in heap && forall y :: y in heap ==> Before(least, y)
    ensures rest == heap - multiset{least} && |rest| < |heap|
  {
    ghost var witness0 := LeastExists(heap);
    least :| least in heap && forall y :: y in heap ==> Before(least, y);
    rest := heap - multiset{least};
  }

  // ---- What the search keeps true ----
  // `order` lists the expanded nodes, oldest first; `last` is the distance of the latest expansion.

  /** Distances of the reached nodes, and how the heap covers those not yet expanded. */
  ghost predicate Frontier(graph: Graph, start: Node, dist: map<Node, real>, heap: multiset<Entry>, order: seq<Node>,
                           last: real)
  {
    && start in dist && dist[start] == 0.0 && 0.0 <= last
    && (forall n :: n in dist ==> n in graph && 0.0 <= dist[n])
    && (forall x :: x in heap ==> heap[x] == 1 && x.node in dist && dist[x.node] <= x.d && last <= x.d)
    && (forall n :: n in dist && n !in order ==> Entry(dist[n], n) in heap)
    && (forall n :: n in order ==> n in dist && dist[n] <= last && Entry(dist[n], n) !in heap)
  }

  /** The predecessors form a tree over the reached nodes; a parent is expanded before its child. */
  ghost predicate Tree(graph: Graph, start: Node, dist: map<Node, real>, prev: map<Node, Step>, order: seq<Node>) {
    && (forall n :: n in prev <==> n in dist && n != start)
    && (forall n :: n in prev ==>
          var s := prev[n];
          && s.from in order && s.from in dist && s.from in graph && Link(n, s.edge) in graph[s.from]
          && dist[n] == dist[s.from] + s.edge.distanceKm)
    && Distinct(order)
    && (forall i :: 0 <= i < |order| && order[i] in prev ==> prev[order[i]].from in order[..i])
  }

  ghost predicate RelaxedUpTo(graph: Graph, dist: map<Node, real>, n: Node, k: nat)
    requires n in graph && n in dist
  {
    forall j :: 0 <= j < k && j < |graph[n]| ==>
      graph[n][j].to in dist && dist[graph[n][j].to] <= dist[n] + graph[n][j].edge.distanceKm
  }

  ghost predicate Relaxed(graph: Graph, dist: map<Node, real>, nodes: seq<Node>) {
    forall n :: n in nodes ==> n in graph && n in dist && RelaxedUpTo(graph, dist, n, |graph[n]|)
  }

  lemma PopFresh(graph: Graph, start: Node, dist: map<Node, real>, heap: multiset<Entry>, order: seq<Node>, last: real,
                 x: Entry)
    requires Frontier(graph, start, dist, heap, order, last)
    requires x in heap && forall y :: y in heap ==> Before(x, y)
    requires x.d <= dist[x.node]
    ensures x.d == dist[x.node] && x.node !in order
    ensures Frontier(graph, start, dist, heap - multiset{x}, order + [x.node], x.d)
  {
    var rest, order1 := heap - multiset{x}, order + [x.node];
    assert x == Entry(dist[x.node], x.node);
    forall n | n in dist && n !in order1
      ensures Entry(dist[n], n) in rest
    {
      assert Entry(dist[n], n) in heap && n != x.node;
    }
    forall y | y in rest
      ensures rest[y] == 1 && y.node in dist && dist[y.node] <= y.d && x.d <= y.d
    {
      assert y in heap && Before(x, y);
    }
  }

  lemma TreeGrows(graph: Graph, start: Node, dist: map<Node, real>, prev: map<Node, Step>, order: seq<Node>, node: Node)
    requires Tree(graph, start, dist, prev, order) && node !in order
    ensures Tree(graph, start, dist, prev, order + [node])
  {
    var order1 := order + [node];
    forall i | 0 <= i < |order1| && order1[i] in prev
      ensures prev[order1[i]].from in order1[..i]
    {
      assert order1[..i] == if i < |order| then order[..i] else order;
    }
  }

  /** A stale entry belongs to a node already expanded, so dropping it uncovers nothing. */
  lemma PopStale(graph: Graph, start: Node, dist: map<Node, real>, heap: multiset<Entry>, order: seq<Node>, last: real,
                 x: Entry)
    requires Frontier(graph, start, dist, heap, order, last)
    requires x in heap && forall y :: y in heap ==> Before(x, y)
    requires x.d > dist[x.node]
    ensures x.node in order
    ensures Frontier(graph, start, dist, heap - multiset{x}, order, last)
  {
    forall n | n in dist && n !in order
      ensures Entry(dist[n], n) in heap - multiset{x}
    {
      assert Entry(dist[n], n) in heap;
    }
  }

  /** Relaxing a link keeps the frontier, the tree, and every relaxation made before. */
  lemma FrontierImproves(graph: Graph, start: Node, dist: map<Node, real>, heap: multiset<Entry>, order: seq<Node>,
                         last: real, n: Node, c: real)
    requires Frontier(graph, start, dist, heap, order, last)
    requires n in graph && last <= c && (n !in dist || c < dist[n])
    ensures n !in order && n != start
    ensures Frontier(graph, start, dist[n := c], heap + multiset{Entry(c, n)}, order, last)
  {
    var heap1 := heap + multiset{Entry(c, n)};
    assert Entry(c, n) !in heap;
    forall x | x in heap1
      ensures heap1[x] == 1 && x.node in dist[n := c] && dist[n := c][x.node] <= x.d && last <= x.d
    {
      assert x == Entry(c, n) || x in heap;
    }
  }

  lemma TreeImproves(graph: Graph, start: Node, dist: map<Node, real>, prev: map<Node, Step>, order: seq<Node>,
                     node: Node, link: Link, c: real)
    requires Tree(graph, start, dist, prev, order) && link.to !in order && link.to != start
    requires node in order && node in dist && node in graph && link in graph[node]
    requires c == dist[node] + link.edge.distanceKm
    ensures Tree(graph, start, dist[link.to := c], prev[link.to := Step(node, link.edge)], order)
  {
    assert Link(link.to, link.edge) == link;
  }

  lemma ImproveKeepsRelaxed(graph: Graph, dist: map<Node, real>, order: seq<Node>, node: Node, k: nat, to: Node,
                            c: real)
    requires node in graph && node in dist && RelaxedUpTo(graph, dist, node, k) && Relaxed(graph, dist, order)
    requires to !in order && to != node && (to in dist ==> c < dist[to])
    ensures RelaxedUpTo(graph, dist[to := c], node, k) && Relaxed(graph, dist[to := c], order)
  {}

  /** Whatever chain leaves a reached node for a node that was never expanded crosses an unexpanded reached node
      whose distance it cannot undercut. */
  lemma {:induction false} ChainCrossesFrontier(graph: Graph, edges: seq<SegmentEdge>, dist: map<Node, real>,
                                                order: seq<Node>, n: Node, p: seq<SegmentEdge>, end: Node)
    returns (m: Node)
    requires IsGraphOf(graph, edges) && Relaxed(graph, dist, order)
    requires n in dist && end !in order && Chain(edges, p, n, end)
    ensures m in dist && m !in order && dist[m] <= dist[n] + Total(p)
    decreases |p|
  {
    if n !in order {
      m := n;
    } else {
      var next := if p[0].A() == n && Chain(edges, p[1..], p[0].B(), end) then p[0].B() else p[0].A();
      LinkIffJoins(edges, n, Link(next, p[0]));
      var j :| 0 <= j < |graph[n]| && graph[n][j] == Link(next, p[0]);
      assert RelaxedUpTo(graph, dist, n, |graph[n]|);
      m := ChainCrossesFrontier(graph, edges, dist, order, next, p[1..], end);
    }
  }

  // ---- The search ----

  /** What is known when the loop stops: `end` was popped first among the unexpanded nodes, or the heap ran dry. */
  ghost predicate Finished(dist: map<Node, real>, order: seq<Node>, end: Node, found: bool) {
    && end !in order
    && (found ==> end in dist && forall n :: n in dist && n !in order ==> dist[end] <= dist[n])
    && (!found ==> forall n :: n in dist ==> n in order)
  }

  /** When `end` surfaces, no unexpanded node is nearer. */
  lemma PopEnd(graph: Graph, start: Node, dist: map<Node, real>, heap: multiset<Entry>, order: seq<Node>, last: real,
               x: Entry)
    requires Frontier(graph, start, dist, heap, order, last) && x.node !in order
    requires x in heap && forall y :: y in heap ==> Before(x, y)
    ensures Finished(dist, order, x.node, true)
  {
    forall n | n in dist && n !in order
      ensures dist[x.node] <= dist[n]
    {
      assert Entry(dist[n], n) in heap;
    }
  }

  /** While `node`, the latest in `order`, is expanded: its first `k` links are relaxed. */
  ghost predicate Expanding(graph: Graph, start: Node, dist: map<Node, real>, prev: map<Node, Step>,
                            heap: multiset<Entry>, order: seq<Node>, node: Node, k: nat)
  {
    && node in dist && node in graph
    && Frontier(graph, start, dist, heap, order + [node], dist[node]) && Tree(graph, start, dist, prev, order + [node])
    && Relaxed(graph, dist, order) && RelaxedUpTo(graph, dist, node, k)
  }

  lemma Improve(graph: Graph, start: Node, dist: map<Node, real>, prev: map<Node, Step>, heap: multiset<Entry>,
                order: seq<Node>, node: Node, k: nat, c: real)
    requires Expanding(graph, start, dist, prev, heap, order, node, k) && k < |graph[node]|
    requires graph[node][k].to in graph && c == dist[node] + graph[node][k].edge.distanceKm
    requires graph[node][k].to !in dist || c < dist[graph[node][k].to]
    ensures var to := graph[node][k].to;
            && Expanding(graph, start, dist[to := c], prev[to := Step(node, graph[node][k].edge)],
                 heap + multiset{Entry(c, to)}, order, node, k + 1)
            && dist[to := c][node] == dist[node]
  {
    var link := graph[node][k];
    FrontierImproves(graph, start, dist, heap, order + [node], dist[node], link.to, c);
    TreeImproves(graph, start, dist, prev, order + [node], node, link, c);
    assert link.to !in order && link.to != node by { assert link.to !in order + [node]; }
    ImproveKeepsRelaxed(graph, dist, order, node, k, link.to, c);
  }

  lemma NothingToImprove(graph: Graph, start: Node, dist: map<Node, real>, prev: map<Node, Step>, heap: multiset<Entry>,
                         order: seq<Node>, node: Node, k: nat)
    requires Expanding(graph, start, dist, prev, heap, order, node, k) && k < |graph[node]|
    requires graph[node][k].to in dist && dist[graph[node][k].to] <= dist[node] + graph[node][k].edge.distanceKm
    ensures Expanding(graph, start, dist, prev, heap, order, node, k + 1)
  {}

  // ---- The account of the heap ----

  /** The nodes of the entries that were not stale, in the order in which they were popped. */
  ghost function Expanded(popped: seq<Entry>, dist: map<Node, real>): seq<Node> {
    if popped == [] then []
    else
      var last := popped[|popped| - 1];
      Expanded(popped[..|popped| - 1], dist) + if last.node in dist
          && last.d == dist[last.node] then [last.node] else []
  }

  /** Every entry pushed was popped or is still in the heap; the best distance of every reached node was pushed. */
  ghost predicate Accounted(dist: map<Node, real>, pushed: seq<Entry>, popped: seq<Entry>, heap: multiset<Entry>) {
    && multiset(pushed) == multiset(popped) + heap
    && forall n :: n in dist ==> Entry(dist[n], n) in pushed
  }

  /** What was popped belongs to expanded nodes, whose distances are final. */
  ghost predicate PoppedOk(dist: map<Node, real>, popped: seq<Entry>, order: seq<Node>) {
    (forall x :: x in popped ==> x.node in order) && Expanded(popped, dist) == order
  }

  lemma {:induction false} ExpandedStays(popped: seq<Entry>, dist: map<Node, real>, dist': map<Node, real>)
    requires forall x :: x in popped ==>
          (x.node in dist <==> x.node in dist') && (x.node in dist ==> dist'[x.node] == dist[x.node])
    ensures Expanded(popped, dist') == Expanded(popped, dist)
  {
    if popped != [] {
      assert popped[|popped| - 1] in popped;
      ExpandedStays(popped[..|popped| - 1], dist, dist');
    }
  }

  lemma PopsFresh(dist: map<Node, real>, popped: seq<Entry>, order: seq<Node>, x: Entry)
    requires PoppedOk(dist, popped, order) && x.node in dist && x.d == dist[x.node]
    ensures PoppedOk(dist, popped + [x], order + [x.node])
  {
    assert (popped + [x])[..|popped|] == popped;
  }

  lemma PopsStale(dist: map<Node, real>, popped: seq<Entry>, order: seq<Node>, x: Entry)
    requires PoppedOk(dist, popped, order) && x.node in order && x.node in dist && x.d != dist[x.node]
    ensures PoppedOk(dist, popped + [x], order)
  {
    assert (popped + [x])[..|popped|] == popped;
  }

  lemma PopsAreAccounted(dist: map<Node, real>, pushed: seq<Entry>, popped: seq<Entry>, heap: multiset<Entry>, x: Entry)
    requires Accounted(dist, pushed, popped, heap) && x in heap
    ensures Accounted(dist, pushed, popped + [x], heap - multiset{x})
  {}

  lemma PushesAreAccounted(dist: map<Node, real>, pushed: seq<Entry>, popped: seq<Entry>, heap: multiset<Entry>,
                           to: Node, c: real)
    requires Accounted(dist, pushed, popped, heap)
    ensures Accounted(dist[to := c], pushed + [Entry(c, to)], popped, heap + multiset{Entry(c, to)})
  {}

  /** The inner loop: every link of the node just expanded is relaxed. */
  method Expand(graph: Graph, ghost start: Node, node: Node, currentDist: real, dist0: map<Node, real>,
                prev0: map<Node, Step>, heap0: multiset<Entry>, ghost order: seq<Node>, ghost pushed0: seq<Entry>,
                ghost popped: seq<Entry>)
    returns (dist: map<Node, real>, prev: map<Node, Step>, heap: multiset<Entry>, ghost pushed: seq<Entry>)
    requires Expanding(graph, start, dist0, prev0, heap0, order, node, 0) && dist0[node] == currentDist
    requires forall l :: l in graph[node] ==> l.to in graph
    requires Accounted(dist0, pushed0, popped, heap0)
    ensures Expanding(graph, start, dist, prev, heap, order, node, |graph[node]|) && dist[node] == currentDist
    ensures Accounted(dist, pushed, popped, heap) && |pushed| <= |pushed0| + |graph[node]|
    ensures forall n :: n in order + [node] ==> n in dist0 && n in dist && dist[n] == dist0[n]
  {
    dist, prev, heap, pushed := dist0, prev0, heap0, pushed0;
    for k := 0 to |graph[node]|
      invariant Expanding(graph, start, dist, prev, heap, order, node, k) && dist[node] == currentDist
      invariant Accounted(dist, pushed, popped, heap) && |pushed| <= |pushed0| + k
      invariant forall n :: n in order + [node] ==> n in dist0 && n in dist && dist[n] == dist0[n]
    {
      var link := graph[node][k];
      var candidate := currentDist + link.edge.distanceKm;
      if link.to !in dist || candidate < dist[link.to] {
        Improve(graph, start, dist, prev, heap, order, node, k, candidate);
        PushesAreAccounted(dist, pushed, popped, heap, link.to, candidate);
        dist := dist[link.to := candidate];
        prev := prev[link.to := Step(node, link.edge)];
        heap := heap + multiset{Entry(candidate, link.to)};
        pushed := pushed + [Entry(candidate, link.to)];
      } else {
        NothingToImprove(graph, start, dist, prev, heap, order, node, k);
      }
    }
  }

  /** The loop over the heap; `pushed` and `popped` list its entries, the one that ended the search being left in it. */
  method Search(ghost edges: seq<SegmentEdge>, graph: Graph, start: Node, end: Node)
    returns (dist: map<Node, real>, prev: map<Node, Step>, heap: multiset<Entry>, ghost order: seq<Node>,
             ghost found: bool,
             ghost pushed: seq<Entry>, ghost popped: seq<Entry>)
    requires IsGraphOf(graph, edges) && start in graph
    ensures start in dist && dist[start] == 0.0
    ensures Tree(graph, start, dist, prev, order) && Relaxed(graph, dist, order)
    ensures Finished(dist, order, end, found)
    ensures Accounted(dist, pushed, popped, heap) && Expanded(popped, dist) == order
    ensures |pushed| <= 1 + 2 * |edges|
  {
    dist, prev := map[start := 0.0], map[];
    heap := multiset{Entry(0.0, start)};
    order, pushed, popped, found := [], [Entry(0.0, start)], [], false;
    ghost var last, unexpanded := 0.0, graph.Keys;
    while heap != multiset{}
      invariant Frontier(graph, start, dist, heap, order, last) && Tree(graph, start, dist, prev, order)
      invariant Relaxed(graph, dist, order) && end !in order
      invariant Accounted(dist, pushed, popped, heap) && PoppedOk(dist, popped, order)
      invariant |pushed| <= 1 + Degrees(graph, order)
      invariant !found && forall n :: n in order ==> n in graph
      invariant forall n :: n in unexpanded <==> n in graph && n !in order
      decreases unexpanded, |heap|
    {
      var current, rest := HeapPop(heap);
      var node := current.node;
      if node == end {
        PopEnd(graph, start, dist, heap, order, last, current);
        found := true;
        break;
      }
      PopsAreAccounted(dist, pushed, popped, heap, current);
      if current.d > dist[node] {
        PopStale(graph, start, dist, heap, order, last, current);
        PopsStale(dist, popped, order, current);
        heap, popped := rest, popped + [current];
        continue;
      }
      PopFresh(graph, start, dist, heap, order, last, current);
      PopsFresh(dist, popped, order, current);
      TreeGrows(graph, start, dist, prev, order, node);
      heap, popped := rest, popped + [current];
      LinksStayInside(graph, edges, node);
      DegreesGrow(graph, order, node);
      ghost var before := dist;
      dist, prev, heap, pushed := Expand(graph, start, node, current.d, dist, prev, heap, order, pushed, popped);
      order, last := order + [node], current.d;
      ExpandedStays(popped, before, dist);
      unexpanded := unexpanded - {node};
    }
    DegreesBound(graph, edges, order);
  }

  // ---- The walk back ----

  function Reverse<T>(s: seq<T>): seq<T> {
    if s == [] then [] else [s[|s| - 1]] + Reverse(s[..|s| - 1])
  }

  lemma ReverseAppend<T>(s: seq<T>, x: T)
    ensures Reverse(s + [x]) == [x] + Reverse(s)
  {
    assert (s + [x])[..|s|] == s;
  }

  /** The predecessor of a node lies earlier in the expansion order, which bounds the walk even along
      zero-length edges. */
  ghost predicate At(order: seq<Node>, pos: nat, cursor: Node) {
    if pos < |order| then order[pos] == cursor else cursor !in order
  }

  lemma Parent(graph: Graph, start: Node, dist: map<Node, real>, prev: map<Node, Step>, order: seq<Node>, pos: nat,
               cursor: Node)
    returns (up: nat)
    requires Tree(graph, start, dist, prev, order) && At(order, pos, cursor) && pos <= |order| && cursor in prev
    ensures up < pos && At(order, up, prev[cursor].from)
  {
    if pos < |order| {
      assert prev[order[pos]].from in order[..pos];
      up :| 0 <= up < pos && order[..pos][up] == prev[cursor].from;
    } else {
      up :| 0 <= up < |order| && order[up] == prev[cursor].from;
    }
  }

  /** `route` leads from `cursor` to `end`, uses no segment twice, and avoids every node expanded before `cursor`. */
  ghost predicate Walked(edges: seq<SegmentEdge>, dist: map<Node, real>, order: seq<Node>, end: Node,
                         route: seq<SegmentEdge>, cursor: Node, pos: nat)
  {
    && pos <= |order| && At(order, pos, cursor) && cursor in dist && end in dist
    && Chain(edges, route, cursor, end) && dist[cursor] + Total(route) == dist[end]
    && Distinct(route)
    && forall e :: e in route ==> e.A() !in order[..pos] && e.B() !in order[..pos]
  }

  lemma WalkUp(edges: seq<SegmentEdge>, graph: Graph, start: Node, end: Node, dist: map<Node, real>,
               prev: map<Node, Step>, order: seq<Node>, route: seq<SegmentEdge>, cursor: Node, pos: nat)
    returns (up: nat)
    requires IsGraphOf(graph, edges) && Tree(graph, start, dist, prev, order)
    requires Walked(edges, dist, order, end, route, cursor, pos) && cursor in prev
    ensures up < pos && Walked(edges, dist, order, end, [prev[cursor].edge] + route, prev[cursor].from, up)
  {
    var step := prev[cursor];
    up := Parent(graph, start, dist, prev, order, pos, cursor);
    LinkIffJoins(edges, step.from, Link(cursor, step.edge));
    assert order[..pos][up] == step.from;
    assert step.edge !in route;
    assert cursor !in order[..up] && step.from !in order[..up];
    assert forall n :: n in order[..up] ==> n in order[..pos];
    assert ([step.edge] + route)[1..] == route;
  }

  method WalkBack(ghost edges: seq<SegmentEdge>, ghost graph: Graph, start: Node, end: Node,
                  ghost dist: map<Node, real>, prev: map<Node, Step>, ghost order: seq<Node>)
    returns (path: seq<SegmentEdge>)
    requires IsGraphOf(graph, edges) && Tree(graph, start, dist, prev, order) && end !in order
    requires start in dist && end in dist
    ensures Chain(edges, path, start, end) && Distinct(path)
    ensures dist[start] + Total(path) == dist[end]
  {
    path := [];
    var cursor := end;
    ghost var pos: nat := |order|;
    while cursor != start
      invariant Walked(edges, dist, order, end, Reverse(path), cursor, pos)
      decreases pos
    {
      ghost var up := WalkUp(edges, graph, start, end, dist, prev, order, Reverse(path), cursor, pos);
      var step := prev[cursor];
      ReverseAppend(path, step.edge);
      path := path + [step.edge];
      cursor, pos := step.from, up;
    }
    path := Reverse(path);
  }

  // ---- The whole function ----

  function LinkEdges(links: seq<Link>): seq<SegmentEdge> {
    seq(|links|, i requires 0 <= i < |links| => links[i].edge)
  }

  /** Python's `min` with a key: the first element of least distance. */
  method Nearest(choices: seq<SegmentEdge>) returns (e: SegmentEdge)
    requires choices != []
    ensures e in choices && forall f :: f in choices ==> e.distanceKm <= f.distanceKm
  {
    e := choices[0];
    for i := 1 to |choices|
      invariant e in choices && forall j :: 0 <= j < i ==> e.distanceKm <= choices[j].distanceKm
    {
      if choices[i].distanceKm < e.distanceKm { e := choices[i]; }
    }
  }

  lemma NoChainFromOutside(edges: seq<SegmentEdge>, start: Node, end: Node)
    requires start != end && (!IsNode(edges, start) || !IsNode(edges, end))
    ensures !Reachable(edges, start, end)
  {
    forall p | Chain(edges, p, start, end)
      ensures false
    {
      ChainEndsAreNodes(edges, p, start, end);
    }
  }

  /** When the loop stops, the distance of `end` bounds every chain from below, and without `end` there is no chain. */
  lemma NothingShorter(graph: Graph, edges: seq<SegmentEdge>, start: Node, end: Node, dist: map<Node, real>,
                       order: seq<Node>, found: bool)
    requires IsGraphOf(graph, edges) && Relaxed(graph, dist, order) && Finished(dist, order, end, found)
    requires start in dist && dist[start] == 0.0
    ensures Reachable(edges, start, end) ==> end in dist
    ensures end in dist ==> forall p :: Chain(edges, p, start, end) ==> dist[end] <= Total(p)
  {
    forall p | Chain(edges, p, start, end)
      ensures found && dist[end] <= Total(p)
    {
      var m := ChainCrossesFrontier(graph, edges, dist, order, start, p, end);
    }
  }

  /** What the search did with its heap: each node is expanded at most once, namely when it is popped at its final
      distance. */
  ghost predicate Thrifty(edges: seq<SegmentEdge>, dist: map<Node, real>, pushed: seq<Entry>, popped: seq<Entry>,
                          heap: multiset<Entry>) {
    Accounted(dist, pushed, popped, heap) && Distinct(Expanded(popped, dist)) && |pushed| <= 1 + 2 * |edges|
  }

  method ShortestPath(ghost edges: seq<SegmentEdge>, graph: Graph, start: Node, end: Node)
    returns (path: seq<SegmentEdge>, ghost dist: map<Node, real>, ghost heap: multiset<Entry>, ghost pushed: seq<Entry>,
             ghost popped: seq<Entry>)
    requires IsGraphOf(graph, edges)
    ensures start != end ==> if Reachable(edges, start, end) then Shortest(edges, path, start, end) else path == []
    ensures start == end ==> if IsNode(edges, start) then NearestAdjacent(edges, path, start) else path == []
    ensures Distinct(path)
    ensures start in graph && end in graph ==> start in dist && Thrifty(edges, dist, pushed, popped, heap)
    ensures start in graph && end in graph && path != [] && start != end ==> end in dist && Total(path) == dist[end]
  {
    path, dist, heap, pushed, popped := [], map[], multiset{}, [], [];
    if start !in graph || end !in graph {
      if start != end { NoChainFromOutside(edges, start, end); }
      return;
    }
    var prev;
    ghost var order, found;
    dist, prev, heap, order, found, pushed, popped := Search(edges, graph, start, end);
    NothingShorter(graph, edges, start, end, dist, order, found);
    if start != end && end !in prev {
      return;
    }
    if start == end {
      path := AtOneNode(edges, graph, start);
      return;
    }
    path := WalkBack(edges, graph, start, end, dist, prev, order);
  }

  /** Both ends snap to one node: its shortest adjacent segment is reserved. */
  method AtOneNode(ghost edges: seq<SegmentEdge>, graph: Graph, node: Node) returns (path: seq<SegmentEdge>)
    requires IsGraphOf(graph, edges) && node in graph
    ensures NearestAdjacent(edges, path, node)
  {
    var choices := LinkEdges(graph[node]);
    forall e | e in edges && e.Touches(node)
      ensures e in choices
    {
      var l := Link(if e.A() == node then e.B() else e.A(), e);
      LinkIffJoins(edges, node, l);
      var i :| 0 <= i < |graph[node]| && graph[node][i] == l;
      assert choices[i] == e;
    }
    if choices == [] { return []; }
    var e := Nearest(choices);
    var i :| 0 <= i < |choices| && choices[i] == e;
    LinkIffJoins(edges, node, graph[node][i]);
    path := [e];
  }
}
