/** Route resolution: snap both ends to nodes, search, and give every segment of the route an hour slot. */
module Timetable {
  import opened Basics
  import opened Rounding
  import opened RoadGraph
  import opened Dijkstra

  const MIN_SEGMENT_MINUTES := 5

  /** `replace(minute=0, second=0, microsecond=0)` */
  function HourOf(t: int): (h: int)
    ensures h <= t < h + 3600 * SECOND && h % (3600 * SECOND) == 0
  {
    t - t % HOUR
  }

  /** Minutes at 90 km/h: within half a minute of two per three kilometres, but never fewer than five. */
  function ToMinutes(km: Km): (m: int)
    ensures 5 <= m && (m > 5 ==> -0.5 <= m as real - 2.0 * km / 3.0 <= 0.5) && 2.0 * km / 3.0 - 0.5 <= m as real
  {
    Max(MIN_SEGMENT_MINUTES, RoundHalfEven(km / 90.0 * 60.0))
  }

  /** Minutes to reach the first node and leave the last one: within half a minute of two per three kilometres. */
  function ApproachMinutes(first: Km, last: Km): (m: int)
    ensures 0 <= m && -0.5 <= m as real - 2.0 * (first + last) / 3.0 <= 0.5
  {
    var km := first + last;
    if km > 0.0 then RoundHalfEven(km / 90.0 * 60.0) else 0
  }

  datatype RouteSegment = RouteSegment(segmentId: string, region: Region, slotStart: int, slotEnd: int, distanceKm: Km,
                                       durationMinutes: int, start: Point, end: Point)

  datatype Resolution = Resolved(segments: seq<RouteSegment>, totalMinutes: int) | RouteNotFound

  function DrivingMinutes(path: seq<SegmentEdge>): int {
    if path == [] then 0 else DrivingMinutes(path[..|path| - 1]) + ToMinutes(path[|path| - 1].distanceKm)
  }

  /** When the driver enters segment `i`. */
  function EntryTime(path: seq<SegmentEdge>, departure: int, i: nat): int
    requires i <= |path|
  {
    departure + DrivingMinutes(path[..i]) * MINUTE
  }

  /** A segment entered at the given moment, in the hour slot that holds it. */
  function Timed(e: SegmentEdge, moment: int): RouteSegment {
    RouteSegment(e.segmentId, e.region, HourOf(moment), HourOf(moment) + HOUR, e.distanceKm, ToMinutes(e.distanceKm),
                 e.start, e.end)
  }

  /** Segment `i` is edge `i` of the path, in the whole hour that holds the moment of entry. */
  ghost predicate IsTimetable(path: seq<SegmentEdge>, departure: int, segments: seq<RouteSegment>) {
    && |segments| == |path|
    && forall i :: 0 <= i < |path| ==>
         && segments[i].segmentId == path[i].segmentId && segments[i].region == path[i].region
         && segments[i].distanceKm == path[i].distanceKm && segments[i].durationMinutes == ToMinutes(path[i].distanceKm)
         && segments[i].start == path[i].start && segments[i].end == path[i].end
         && segments[i].slotStart % HOUR == 0 && segments[i].slotEnd == segments[i].slotStart + HOUR
         && segments[i].slotStart <= EntryTime(path, departure, i) < segments[i].slotEnd
  }

  lemma DrivingGrows(path: seq<SegmentEdge>, e: SegmentEdge)
    ensures DrivingMinutes(path + [e]) == DrivingMinutes(path) + ToMinutes(e.distanceKm)
  {
    assert (path + [e])[..|path|] == path;
  }

  lemma EntryAdvances(path: seq<SegmentEdge>, departure: int, i: nat)
    requires i < |path|
    ensures EntryTime(path, departure, i + 1) == EntryTime(path, departure, i) + ToMinutes(path[i].distanceKm) * MINUTE
  {
    assert path[..i + 1] == path[..i] + [path[i]];
    DrivingGrows(path[..i], path[i]);
  }

  lemma TimetableGrows(path: seq<SegmentEdge>, departure: int, segments: seq<RouteSegment>, i: nat)
    requires i < |path| && IsTimetable(path[..i], departure, segments)
    ensures IsTimetable(path[..i + 1], departure, segments + [Timed(path[i], EntryTime(path, departure, i))])
  {
    assert path[..i + 1] == path[..i] + [path[i]];
    forall k | 0 <= k <= i
      ensures EntryTime(path[..i + 1], departure, k) == EntryTime(path, departure, k)
      ensures k < i ==> EntryTime(path[..i], departure, k) == EntryTime(path, departure, k)
    {
      assert path[..i + 1][..k] == path[..k] && (k < i ==> path[..i][..k] == path[..k]);
    }
  }

  ghost predicate IsNearest(positions: map<Node, Point>, p: Point, haversine: (Point, Point) -> Km, n: Node) {
    n in positions && forall m :: m in positions ==> haversine(p, positions[n]) <= haversine(p, positions[m])
  }

  method NearestNode(p: Point, positions: map<Node, Point>, haversine: (Point, Point) -> Km) returns (n: Node)
    requires positions != map[]
    ensures IsNearest(positions, p, haversine, n)
  {
    n :| n in positions;
    var rest := positions.Keys - {n};
    while rest != {}
      invariant n in positions && rest <= positions.Keys
      invariant forall m :: m in positions && m !in rest ==> haversine(p, positions[n]) <= haversine(p, positions[m])
      decreases rest
    {
      var m :| m in rest;
      if haversine(p, positions[m]) < haversine(p, positions[n]) { n := m; }
      rest := rest - {m};
    }
  }

  method Schedule(path: seq<SegmentEdge>, departure: int) returns (segments: seq<RouteSegment>, drivingMinutes: int)
    ensures IsTimetable(path, departure, segments)
    ensures drivingMinutes == DrivingMinutes(path)
  {
    segments, drivingMinutes := [], 0;
    var tripCursor := departure;
    for i := 0 to |path|
      invariant IsTimetable(path[..i], departure, segments)
      invariant drivingMinutes == DrivingMinutes(path[..i]) && tripCursor == EntryTime(path, departure, i)
    {
      var edge := path[i];
      TimetableGrows(path, departure, segments, i);
      EntryAdvances(path, departure, i);
      DrivingGrows(path[..i], edge);
      assert path[..i + 1] == path[..i] + [edge];
      segments := segments + [Timed(edge, tripCursor)];
      tripCursor := tripCursor + ToMinutes(edge.distanceKm) * MINUTE;
      drivingMinutes := drivingMinutes + ToMinutes(edge.distanceKm);
    }
    assert path[..|path|] == path;
  }

  /** What a resolved route is: a shortest chain between the snapped nodes, timed segment by segment. */
  ghost predicate IsRoute(edges: seq<SegmentEdge>, path: seq<SegmentEdge>, s: Node, t: Node) {
    && Distinct(path) && path != []
    && if s == t then NearestAdjacent(edges, path, s) else Shortest(edges, path, s, t)
  }

  lemma SomeNode(edges: seq<SegmentEdge>, positions: map<Node, Point>)
    requires edges != [] && PositionsOf(edges, positions)
    ensures positions != map[]
  {
    assert edges[0].Touches(edges[0].A());
    assert edges[0].A() in positions.Keys;
  }

  /** The `max(1, ...)` around the total never bites. */
  lemma FloorIsIdle(path: seq<SegmentEdge>)
    requires path != []
    ensures 5 <= 5 * |path| <= DrivingMinutes(path)
  {
    DrivingBounds(path);
  }

  method ResolveRoute(edges: seq<SegmentEdge>, origin: Point, dest: Point, departure: int,
                      haversine: (Point, Point) -> Km)
    returns (r: Resolution, ghost path: seq<SegmentEdge>, ghost positions: map<Node, Point>, ghost s: Node,
             ghost t: Node)
    ensures edges == [] ==> r == RouteNotFound
    ensures edges != [] ==> IsNearest(positions, origin, haversine, s) && IsNearest(positions, dest, haversine, t)
    ensures edges != [] ==> PositionsOf(edges, positions)
    ensures edges != [] ==> (r == RouteNotFound <==> s != t && !Reachable(edges, s, t))
    ensures r.Resolved? ==> IsRoute(edges, path, s, t) && IsTimetable(path, departure, r.segments)
    ensures r.Resolved? ==> |r.segments| == |path| && forall i :: 0 <= i < |path| ==>
      && r.segments[i].segmentId == path[i].segmentId && r.segments[i].region == path[i].region
      && r.segments[i].distanceKm == path[i].distanceKm
      && r.segments[i].start == path[i].start && r.segments[i].end == path[i].end
      && r.segments[i].slotStart <= EntryTime(path, departure, i) < r.segments[i].slotEnd
    ensures r.Resolved? ==>
      r.totalMinutes == DrivingMinutes(path) + ApproachMinutes(haversine(origin, positions[s]),
          haversine(dest, positions[t]))
  {
    path, positions, s, t := [], map[], Node(0, 0), Node(0, 0);
    if edges == [] { return RouteNotFound, path, positions, s, t; }
    var graph, nodePositions := BuildGraph(edges);
    SomeNode(edges, nodePositions);
    var startNode := NearestNode(origin, nodePositions, haversine);
    var endNode := NearestNode(dest, nodePositions, haversine);
    positions, s, t := nodePositions, startNode, endNode;
    ghost var dist, heap, pushed, popped;
    var found;
    found, dist, heap, pushed, popped := ShortestPath(edges, graph, startNode, endNode);
    path := found;
    if found == [] { return RouteNotFound, path, positions, s, t; }
    var approachMinutes := ApproachMinutes(haversine(origin, nodePositions[startNode]),
                                           haversine(dest, nodePositions[endNode]));
    var segments, drivingMinutes := Schedule(found, departure);
    FloorIsIdle(found);
    r := Resolved(segments, Max(1, drivingMinutes + approachMinutes));
  }

  // ---- What the timetable promises ----

  lemma {:induction false} DrivingAdds(path: seq<SegmentEdge>, i: nat, j: nat)
    requires i <= j <= |path|
    ensures DrivingMinutes(path[..i]) + MIN_SEGMENT_MINUTES * (j - i) <= DrivingMinutes(path[..j])
    decreases j
  {
    if i < j {
      DrivingAdds(path, i, j - 1);
      assert path[..j][..j - 1] == path[..j - 1];
    }
  }

  lemma FloorMonotone(t: int, u: int)
    requires t <= u
    ensures HourOf(t) <= HourOf(u)
  {
    assert t % HOUR == t - t / HOUR * HOUR && u % HOUR == u - u / HOUR * HOUR;
  }

  /** Only one whole hour holds a moment. */
  lemma HourIsUnique(t: int, h: int)
    requires h % HOUR == 0 && h <= t < h + HOUR
    ensures h == HourOf(t)
  {
    FloorMonotone(h, t);
    assert h == h / HOUR * HOUR && HourOf(t) == HourOf(t) / HOUR * HOUR;
  }

  /** Every slot is a whole hour holding the moment of entry, slots never go back, and `check_capacity`,
      which floors the slot start again, counts under the same slot. */
  lemma SlotsFollowTheClock(path: seq<SegmentEdge>, departure: int, segments: seq<RouteSegment>, i: nat, j: nat)
    requires IsTimetable(path, departure, segments) && i <= j < |path|
    ensures segments[j].slotStart <= EntryTime(path, departure, j) < segments[j].slotEnd == segments[j].slotStart + HOUR
    ensures HourOf(segments[j].slotStart) == segments[j].slotStart
    ensures segments[i].slotStart <= segments[j].slotStart
    ensures EntryTime(path, departure, i) + 5 * MINUTE * (j - i) <= EntryTime(path, departure, j)
  {
    DrivingAdds(path, i, j);
    FloorMonotone(EntryTime(path, departure, i), EntryTime(path, departure, j));
    HourIsUnique(EntryTime(path, departure, i), segments[i].slotStart);
    HourIsUnique(EntryTime(path, departure, j), segments[j].slotStart);
    HourIsUnique(segments[j].slotStart, segments[j].slotStart);
  }

  /** The driver enters the first segment at departure, and each following one when the one before has been driven. */
  lemma EntriesAddUp(path: seq<SegmentEdge>, departure: int, segments: seq<RouteSegment>, i: nat)
    requires IsTimetable(path, departure, segments) && i < |path|
    ensures EntryTime(path, departure, 0) == departure
    ensures EntryTime(path, departure, i + 1) - EntryTime(path, departure, i)
            == segments[i].durationMinutes * 60 * SECOND
    ensures 5 <= segments[i].durationMinutes
    ensures segments[i].durationMinutes == 5
         || -0.5 <= segments[i].durationMinutes as real - 2.0 * path[i].distanceKm / 3.0 <= 0.5
  {
    EntryAdvances(path, departure, i);
  }

  lemma TotalAppend(p: seq<SegmentEdge>, e: SegmentEdge)
    ensures Total(p + [e]) == Total(p) + e.distanceKm
  {
    if p != [] {
      assert (p + [e])[1..] == p[1..] + [e];
      TotalAppend(p[1..], e);
    }
  }

  /** Driving time against length: between 2d/3 - n/2 and 2d/3 + 5n minutes for n segments over d kilometres, and at
      least 5n. */
  lemma {:induction false} DrivingBounds(path: seq<SegmentEdge>)
    ensures 2.0 * Total(path) / 3.0 - |path| as real / 2.0 <= DrivingMinutes(path) as real
    ensures DrivingMinutes(path) as real <= 2.0 * Total(path) / 3.0 + 5.0 * |path| as real
    ensures 5 * |path| <= DrivingMinutes(path)
  {
    if path != [] {
      var init, last := path[..|path| - 1], path[|path| - 1];
      DrivingBounds(init);
      TotalAppend(init, last);
      assert path == init + [last];
    }
  }

  /** With segment ids unique in the network, one booking asks for a (segment, slot) pair at most once. */
  lemma RouteNeverRepeats(edges: seq<SegmentEdge>, path: seq<SegmentEdge>, departure: int, segments: seq<RouteSegment>,
                          s: Node, t: Node)
    requires IsRoute(edges, path, s, t) && IsTimetable(path, departure, segments)
    requires forall e, f :: e in edges && f in edges && e.segmentId == f.segmentId ==> e == f
    ensures forall i, j :: 0 <= i < j < |segments| ==> segments[i].segmentId != segments[j].segmentId
  {
    if s != t { ChainIsKnown(edges, path, s, t); }
  }

  lemma {:induction false} ChainIsKnown(edges: seq<SegmentEdge>, p: seq<SegmentEdge>, s: Node, t: Node)
    requires Chain(edges, p, s, t)
    ensures forall e :: e in p ==> e in edges
    decreases |p|
  {
    if p != [] {
      var next := if p[0].A() == s && Chain(edges, p[1..], p[0].B(), t) then p[0].B() else p[0].A();
      ChainIsKnown(edges, p[1..], next, t);
      assert p == [p[0]] + p[1..];
    }
  }
}
