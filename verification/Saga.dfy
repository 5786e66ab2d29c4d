/** One booking saga from end to end, under every pattern of faults: reservations, commit, publication, compensation. */
module Saga {
  import opened Basics
  import opened RoadGraph
  import opened Timetable
  import opened Database

  /** LOCAL_REGION and whether PEER_BOOKING_URL is set. */
  datatype Topology = Topology(localRegions: set<Region>, peerConfigured: bool)

  predicate IsLocal(topo: Topology, region: Region) {
    !topo.peerConfigured || region in topo.localRegions
  }

  function SlotOf(seg: RouteSegment): Slot { Slot(seg.region, seg.segmentId, seg.slotStart) }

  /** What can go wrong while one segment is reserved. A lost peer call may or may not have run to its commit:
      `Unreachable` is a connect, network or timeout error, `Broken` any other transport failure. */
  datatype Fault = Fine | LockBusy | DbError | Unreachable(ran: bool) | Broken(ran: bool)

  datatype Reply = Created201 | Full409 | Error500

  datatype PeerOutcome = Reserved | Refused | RegionUnavailable

  // ---- The peer's two endpoints ----

  function Row(b: Id, slot: Slot): Reservation { Reservation(b, slot, Confirmed) }

  method PeerReserve(peer: Server, caps: Capacities, b: Id, slot: Slot, fault: Fault) returns (reply: Reply)
    modifies peer
    ensures reply == Created201 <==>
          !fault.LockBusy? && !fault.DbError? && HasRoom(caps, old(peer.db).reservations, slot)
    ensures peer.db == if reply == Created201 then old(peer.db).(reservations
            := old(peer.db).reservations + [Row(b, slot)]) else old(peer.db)
  {
    if fault.LockBusy? || fault.DbError? { return Error500; }
    var session := new Session(peer);
    var cap := session.CheckCapacity(caps, slot.schema, slot.segmentId, slot.start);
    if cap.SegmentNotFound? { return Error500; }
    if cap.booked >= cap.max { return Full409; }
    var ok := session.ReserveSegment(caps, b, slot, Confirmed);
    MergeAlone(session.base, session.view);
    var committed := session.Commit();
    reply := Created201;
  }

  function Members(schemas: seq<Region>): set<Region> { set s | s in schemas }

  method PeerRelease(peer: Server, b: Id)
    modifies peer
    ensures peer.db == old(peer.db).(reservations := Released(old(peer.db).reservations, ALL_SCHEMAS, b))
  {
    var session := new Session(peer);
    ghost var rows := peer.db.reservations;
    session.Begin();
    for i := 0 to |SCHEMAS|
      invariant session.Valid() && session.active && session.base == peer.db == old(peer.db)
      invariant session.view == old(peer.db).(reservations := Released(rows, Members(SCHEMAS[..i]), b))
    {
      ReleasedTwice(rows, Members(SCHEMAS[..i]), {SCHEMAS[i]}, b);
      session.ReleaseSegment(SCHEMAS[i], b);
      assert Members(SCHEMAS[..i + 1]) == Members(SCHEMAS[..i]) + {SCHEMAS[i]};
    }
    assert SCHEMAS[..3] == SCHEMAS && Members(SCHEMAS) == ALL_SCHEMAS;
    MergeAlone(session.base, session.view);
    var committed := session.Commit();
  }

  /** The saga's side of the call: which exception, if any, comes out of it. */
  method CallPeer(peer: Server, caps: Capacities, b: Id, slot: Slot, fault: Fault) returns (outcome: PeerOutcome)
    modifies peer
    ensures outcome == Reserved <==> fault.Fine? && HasRoom(caps, old(peer.db).reservations, slot)
    ensures outcome == RegionUnavailable <==> fault.Unreachable?
    ensures fault in {Fine, Unreachable(true), Broken(true)} && HasRoom(caps, old(peer.db).reservations, slot)
            <==> peer.db != old(peer.db)
    ensures peer.db == if Lands(fault) && HasRoom(caps, old(peer.db).reservations, slot)
                       then old(peer.db).(reservations := old(peer.db).reservations + [Row(b, slot)]) else old(peer.db)
  {
    var reply := Error500;
    if Lands(fault) { reply := PeerReserve(peer, caps, b, slot, fault); }
    outcome := if fault.Unreachable? then RegionUnavailable
               else if reply == Created201 && fault.Fine? then Reserved else Refused;
  }

  /** The request reaches the peer and its handler runs to the end. */
  predicate Lands(fault: Fault) {
    match fault
    case Fine => true
    case Unreachable(ran) => ran
    case Broken(ran) => ran
    case _ => false
  }

  // ---- What a saga writes ----

  /** The rows of a route's local, or remote, segments. */
  function Rows(topo: Topology, b: Id, segs: seq<RouteSegment>, local: bool): seq<Reservation> {
    if segs == [] then []
    else Rows(topo, b, segs[..|segs| - 1], local)
         + (if IsLocal(topo, segs[|segs| - 1].region) == local then [Row(b, SlotOf(segs[|segs| - 1]))] else [])
  }

  /** Segment `i` finds room where it is reserved, after the earlier segments of the same route. */
  ghost predicate FindsRoom(topo: Topology, caps: Capacities, peerCaps: Capacities, home: seq<Reservation>,
                            peer: seq<Reservation>, b: Id, segs: seq<RouteSegment>, i: nat)
    requires i < |segs|
  {
    if IsLocal(topo, segs[i].region)
    then HasRoom(caps, home + Rows(topo, b, segs[..i], true), SlotOf(segs[i]))
    else HasRoom(peerCaps, peer + Rows(topo, b, segs[..i], false), SlotOf(segs[i]))
  }

  /** `at` segments were reserved; if that is not all of them, segment `at` is the first one that could not be. */
  ghost predicate StopsAt(topo: Topology, caps: Capacities, peerCaps: Capacities, home: seq<Reservation>,
                          peer: seq<Reservation>, b: Id, segs: seq<RouteSegment>, faults: seq<Fault>, at: nat)
    requires |faults| == |segs|
  {
    && at <= |segs|
    && (forall i :: 0 <= i < at ==> faults[i].Fine? && FindsRoom(topo, caps, peerCaps, home, peer, b, segs, i))
    && (at < |segs| ==> !(faults[at].Fine? && FindsRoom(topo, caps, peerCaps, home, peer, b, segs, at)))
  }

  /** The call for segment `at` ends in a RegionUnavailableError. */
  predicate PeerDown(topo: Topology, segs: seq<RouteSegment>, faults: seq<Fault>, at: nat)
    requires |faults| == |segs|
  {
    at < |segs| && !IsLocal(topo, segs[at].region) && faults[at].Unreachable?
  }

  /** The row that the failing call itself left at the peer. */
  function OwnRow(topo: Topology, b: Id, segs: seq<RouteSegment>, at: nat, landed: bool): seq<Reservation> {
    if at < |segs| && landed then [Row(b, SlotOf(segs[at]))] else []
  }

  ghost predicate Unheard(db: Db, b: Id) {
    forall r :: r in db.reservations || r in db.segmentRows ==> r.booking != b
  }

  lemma RowsGrow(topo: Topology, b: Id, segs: seq<RouteSegment>, i: nat, local: bool)
    requires i < |segs|
    ensures Rows(topo, b, segs[..i + 1], local)
         == Rows(topo, b, segs[..i], local) + (if IsLocal(topo, segs[i].region) == local then [Row(b, SlotOf(segs[i]))]
             else [])
  {
    assert segs[..i + 1][..i] == segs[..i];
  }

  // ---- The saga ----

  /** One local segment, inside its lock. The open session keeps its snapshot. */
  method ReserveLocal(session: Session, caps: Capacities, b: Id, slot: Slot, fault: Fault) returns (ok: bool)
    requires session.Valid() && session.active
    modifies session
    ensures session.Valid() && session.active && session.base == old(session.base)
    ensures ok <==> fault.Fine? && HasRoom(caps, old(session.view).reservations, slot)
    ensures ok ==> session.view == Db(old(session.view).bookings, old(session.view).reservations + [Row(b, slot)],
                                      old(session.view).segmentRows + [Row(b, slot)])
  {
    if fault.LockBusy? { return false; }
    var cap := session.CheckCapacity(caps, slot.schema, slot.segmentId, slot.start);
    if cap.Load? && cap.booked >= cap.max { return false; }
    var inserted := session.ReserveSegment(caps, b, slot, Confirmed);
    if !inserted || !fault.Fine? { return false; }
    session.view := session.view.(segmentRows := session.view.segmentRows + [Row(b, slot)]);
    ok := true;
  }

  function WithRows(db: Db, rows: seq<Reservation>): Db {
    db.(reservations := db.reservations + rows, segmentRows := db.segmentRows + rows)
  }

  /** Both databases after the first `at` segments. */
  ghost predicate Reached(topo: Topology, b: Id, segs: seq<RouteSegment>, at: nat, home0: Db, peer0: Db, view: Db,
                          peer: Db) {
    && at <= |segs|
    && view == WithRows(home0, Rows(topo, b, segs[..at], true))
    && peer == peer0.(reservations := peer0.reservations + Rows(topo, b, segs[..at], false))
  }

  /** The body of the loop over the route. */
  method ReserveNext(session: Session, peer: Server, topo: Topology, caps: Capacities, peerCaps: Capacities, b: Id,
                     segs: seq<RouteSegment>, at: nat, fault: Fault, ghost home0: Db, ghost peer0: Db)
    returns (ok: bool, unavailable: bool, ghost landed: bool)
    requires session.Valid() && session.active && session.server != peer && at < |segs|
    requires Reached(topo, b, segs, at, home0, peer0, session.view, peer.db)
    modifies session, peer
    ensures session.Valid() && session.active && session.base == old(session.base)
    ensures ok <==> fault.Fine? && FindsRoom(topo, caps, peerCaps, home0.reservations, peer0.reservations, b, segs, at)
    ensures unavailable <==> !IsLocal(topo, segs[at].region) && fault.Unreachable?
    ensures landed <==> !IsLocal(topo, segs[at].region) && Lands(fault)
                        && FindsRoom(topo, caps, peerCaps, home0.reservations, peer0.reservations, b, segs, at)
    ensures ok ==> Reached(topo, b, segs, at + 1, home0, peer0, session.view, peer.db)
    ensures !ok ==> peer.db == old(peer.db).(reservations
            := old(peer.db).reservations + OwnRow(topo, b, segs, at, landed))
  {
    var seg := segs[at];
    RowsGrow(topo, b, segs, at, true);
    RowsGrow(topo, b, segs, at, false);
    unavailable, landed := false, false;
    if IsLocal(topo, seg.region) {
      ok := ReserveLocal(session, caps, b, SlotOf(seg), fault);
    } else {
      landed := Lands(fault) && HasRoom(peerCaps, peer.db.reservations, SlotOf(seg));
      var outcome := CallPeer(peer, peerCaps, b, SlotOf(seg), fault);
      ok, unavailable := outcome == Reserved, outcome == RegionUnavailable;
    }
  }

  /** The loop over the route. */
  method ReserveRoute(session: Session, peer: Server, topo: Topology, caps: Capacities, peerCaps: Capacities, b: Id,
                      segs: seq<RouteSegment>, faults: seq<Fault>)
    returns (at: nat, peerReserved: bool, unavailable: bool, ghost landed: bool)
    requires session.Valid() && session.active && session.server != peer && |faults| == |segs|
    modifies session, peer
    ensures session.Valid() && session.active && session.base == old(session.base)
    ensures StopsAt(topo, caps, peerCaps, old(session.view).reservations, old(peer.db).reservations, b, segs, faults,
                    at)
    ensures peerReserved <==> Rows(topo, b, segs[..at], false) != []
    ensures unavailable <==> PeerDown(topo, segs, faults, at)
    ensures landed <==> LandsAt(topo, peerCaps, old(peer.db).reservations, b, segs, faults, at)
    ensures peer.db == old(peer.db).(reservations
            := old(peer.db).reservations + Rows(topo, b, segs[..at], false) + OwnRow(topo, b, segs, at, landed))
    ensures at == |segs| ==> session.view == WithRows(old(session.view), Rows(topo, b, segs, true))
  {
    at, peerReserved, unavailable, landed := 0, false, false, false;
    ghost var home0, peer0 := session.view, peer.db;
    while at < |segs|
      invariant session.Valid() && session.active && session.base == old(session.base)
      invariant Reached(topo, b, segs, at, home0, peer0, session.view, peer.db)
      invariant forall i :: 0 <= i < at ==>
            faults[i].Fine? && FindsRoom(topo, caps, peerCaps, home0.reservations, peer0.reservations, b, segs, i)
      invariant peerReserved <==> Rows(topo, b, segs[..at], false) != []
      invariant !unavailable && !landed
    {
      RowsGrow(topo, b, segs, at, false);
      var ok;
      ok, unavailable, landed := ReserveNext(session, peer, topo, caps, peerCaps, b, segs, at, faults[at], home0,
                                             peer0);
      if !ok { return; }
      peerReserved, landed := peerReserved || !IsLocal(topo, segs[at].region), false;
      at := at + 1;
    }
    assert segs[..at] == segs;
  }

  // ---- Compensation ----

  function LocalSchemas(topo: Topology, segs: seq<RouteSegment>): set<Region> {
    set seg | seg in segs && IsLocal(topo, seg.region) :: seg.region
  }

  lemma ReleasedTwice(rows: seq<Reservation>, s: set<Region>, t: set<Region>, b: Id)
    ensures Released(Released(rows, s, b), t, b) == Released(rows, s + t, b)
  {}

  lemma ReleasingNothing(rows: seq<Reservation>, b: Id, s: set<Region>)
    requires forall r :: r in rows && r.booking == b ==> r.slot.schema in s
    ensures Released(rows, s, b) == Released(rows, ALL_SCHEMAS, b)
    ensures s == {} ==> Released(rows, s, b) == rows
  {
    forall i | 0 <= i < |rows|
      ensures rows[i].slot.schema in ALL_SCHEMAS && rows[i] in rows
    {
      AllSchemas(rows[i].slot.schema);
    }
  }

  lemma {:induction false} RowsBelong(topo: Topology, b: Id, segs: seq<RouteSegment>, local: bool)
    ensures forall r :: r in Rows(topo, b, segs, local) ==> r.booking == b && r.status == Confirmed
    ensures local ==> forall r :: r in Rows(topo, b, segs, local) ==> r.slot.schema in LocalSchemas(topo, segs)
    ensures !local && !topo.peerConfigured ==> Rows(topo, b, segs, local) == []
  {
    if segs != [] {
      RowsBelong(topo, b, segs[..|segs| - 1], local);
      assert segs == segs[..|segs| - 1] + [segs[|segs| - 1]];
    }
  }

  /** Every local segment reserved so far is released, with a commit for each. */
  method CompensateLocal(session: Session, topo: Topology, b: Id, segs: seq<RouteSegment>)
    requires session.Valid() && !session.active
    requires forall r ::
          r in session.server.db.reservations && r.booking == b ==> r.slot.schema in LocalSchemas(topo, segs)
    modifies session, session.server
    ensures session.Valid() && !session.active
    ensures session.server.db == old(session.server.db).(reservations
            := Released(old(session.server.db).reservations, ALL_SCHEMAS, b))
  {
    ghost var rows := session.server.db.reservations;
    assert Released(rows, {}, b) == rows;
    for i := 0 to |segs|
      invariant session.Valid() && !session.active
      invariant session.server.db == old(session.server.db).(reservations
                := Released(rows, LocalSchemas(topo, segs[..i]), b))
    {
      assert segs[..i + 1] == segs[..i] + [segs[i]];
      if IsLocal(topo, segs[i].region) {
        assert LocalSchemas(topo, segs[..i + 1]) == LocalSchemas(topo, segs[..i]) + {segs[i].region};
        ReleasedTwice(rows, LocalSchemas(topo, segs[..i]), {segs[i].region}, b);
        session.ReleaseSegment(segs[i].region, b);
        MergeAlone(session.base, session.view);
        var committed := session.Commit();
      } else {
        assert LocalSchemas(topo, segs[..i + 1]) == LocalSchemas(topo, segs[..i]);
      }
    }
    assert segs[..|segs|] == segs;
    ReleasingNothing(rows, b, LocalSchemas(topo, segs));
  }

  /** The home database when the saga is over. */
  function HomeAfter(topo: Topology, db: Db, b: Id, booking: Booking, segs: seq<RouteSegment>, saved: bool,
                     released: bool): Db {
    if !saved then db
    else
      var with := WithRows(db.(bookings := db.bookings[b := booking]), Rows(topo, b, segs, true));
      if released then with.(reservations := Released(with.reservations, ALL_SCHEMAS, b)) else with
  }

  /** The peer's database when the saga is over. */
  function PeerAfter(topo: Topology, db: Db, b: Id, segs: seq<RouteSegment>, at: nat, landed: bool,
                     compensated: bool): Db
    requires at <= |segs|
  {
    var left := db.reservations + Rows(topo, b, segs[..at], false) + OwnRow(topo, b, segs, at, landed);
    db.(reservations := if compensated then Released(left, ALL_SCHEMAS, b) else left)
  }

  /** The peer is told to release, and does: a remote segment was reserved, the saga failed, and not for want of the
      peer. */
  predicate Compensates(topo: Topology, b: Id, segs: seq<RouteSegment>, faults: seq<Fault>, at: nat, ok: bool,
                        delivers: bool)
    requires |faults| == |segs| && at <= |segs|
  {
    !ok && Rows(topo, b, segs[..at], false) != [] && !PeerDown(topo, segs, faults, at) && delivers
  }

  /** The failing call for segment `at` left its row at the peer. */
  ghost predicate LandsAt(topo: Topology, peerCaps: Capacities, peer: seq<Reservation>, b: Id, segs: seq<RouteSegment>,
                          faults: seq<Fault>, at: nat)
    requires |faults| == |segs|
  {
    && at < |segs| && !IsLocal(topo, segs[at].region) && Lands(faults[at])
    && HasRoom(peerCaps, peer + Rows(topo, b, segs[..at], false), SlotOf(segs[at]))
  }

  /** The saga: reserve the route, commit, publish `booking.confirmed`; on any exception roll back and compensate.
      `publishes`, `releases` and `delivers` say whether the broker takes the saga's event (that one, or
      `booking.failed` after a failure), local compensation commits, and the peer gets the release. */
  method ExecuteBookingSaga(session: Session, peer: Server, topo: Topology, caps: Capacities, peerCaps: Capacities,
                            b: Id, booking: Booking, segs: seq<RouteSegment>, faults: seq<Fault>, publishes: bool,
                            releases: bool, delivers: bool)
    returns (ok: bool, unavailable: bool, ghost at: nat, ghost landed: bool)
    requires session.Valid() && session.active && session.server != peer && |faults| == |segs|
    requires session.view == session.base.(bookings := session.base.bookings[b := booking])
    requires b !in session.server.db.bookings && Unheard(session.server.db, b)
    modifies session, session.server, peer
    ensures session.Valid() && !session.active
    ensures StopsAt(topo, caps, peerCaps, old(session.base).reservations, old(peer.db).reservations, b, segs, faults,
                    at)
    ensures ok <==> at == |segs| && publishes
    ensures unavailable <==> PeerDown(topo, segs, faults, at)
    ensures landed <==> LandsAt(topo, peerCaps, old(peer.db).reservations, b, segs, faults, at)
    ensures session.server.db == HomeAfter(topo, old(session.server.db), b, booking, segs, at == |segs|, !ok
            && releases)
    ensures peer.db == PeerAfter(topo, old(peer.db), b, segs, at, landed,
                                 Compensates(topo, b, segs, faults, at, ok, delivers))
  {
    var n, peerReserved;
    n, peerReserved, unavailable, landed := ReserveRoute(session, peer, topo, caps, peerCaps, b, segs, faults);
    at := n;
    if n == |segs| {
      var rows := Rows(topo, b, segs, true);
      MergeOfInserts(session.base, session.view, session.server.db, b, booking, rows, rows);
      var committed := session.Commit();
      if publishes { return true, false, at, false; }
    }
    ok := false;
    session.Rollback();
    RowsBelong(topo, b, segs[..n], true);
    RowsBelong(topo, b, segs[..n], false);
    if n < |segs| {
      ReleasingNothing(session.server.db.reservations, b, {});
    } else {
      assert segs[..n] == segs;
    }
    if releases { CompensateLocal(session, topo, b, segs[..n]); }
    if peerReserved && topo.peerConfigured && !unavailable && delivers { PeerRelease(peer, b); }
  }

  // ---- What the booking ends up holding ----

  predicate SegmentsDiffer(segs: seq<RouteSegment>) {
    forall i, j :: 0 <= i < j < |segs| ==> segs[i].segmentId != segs[j].segmentId
  }

  lemma {:induction false} NoRowElsewhere(topo: Topology, b: Id, segs: seq<RouteSegment>, local: bool, slot: Slot)
    requires forall i :: 0 <= i < |segs| ==> SlotOf(segs[i]) != slot
    ensures Holding(Rows(topo, b, segs, local), b, slot) == 0
  {
    if segs != [] {
      var init, last := segs[..|segs| - 1], segs[|segs| - 1];
      NoRowElsewhere(topo, b, init, local, slot);
      HoldingSplits(Rows(topo, b, init, local),
                    if IsLocal(topo, last.region) == local then [Row(b, SlotOf(last))] else [], b, slot);
    }
  }

  lemma {:induction false} RowsOfSegment(topo: Topology, b: Id, segs: seq<RouteSegment>, local: bool, i: nat)
    requires SegmentsDiffer(segs) && i < |segs|
    ensures Holding(Rows(topo, b, segs, local), b, SlotOf(segs[i])) == if IsLocal(topo, segs[i].region) == local then 1
            else 0
  {
    var slot, init, last := SlotOf(segs[i]), segs[..|segs| - 1], segs[|segs| - 1];
    var added := if IsLocal(topo, last.region) == local then [Row(b, SlotOf(last))] else [];
    HoldingSplits(Rows(topo, b, init, local), added, b, slot);
    if added != [] { assert added[..0] == []; }
    if i == |segs| - 1 {
      NoRowElsewhere(topo, b, init, local, slot);
    } else {
      RowsOfSegment(topo, b, init, local, i);
      assert SlotOf(last) != slot;
    }
  }

  lemma {:induction false} LocalRowIsWritten(topo: Topology, b: Id, segs: seq<RouteSegment>, i: nat)
    requires i < |segs| && IsLocal(topo, segs[i].region)
    ensures Row(b, SlotOf(segs[i])) in Rows(topo, b, segs, true)
  {
    if i < |segs| - 1 { LocalRowIsWritten(topo, b, segs[..|segs| - 1], i); }
  }

  lemma OneRow(b: Id, added: Slot, slot: Slot)
    ensures Holding([Row(b, added)], b, slot) == if slot == added then 1 else 0
  {
    assert [Row(b, added)][..0] == [];
  }

  /** What the first `at` segments and the failing call put at the peer. */
  lemma ReservedThere(topo: Topology, b: Id, segs: seq<RouteSegment>, at: nat, landed: bool, i: nat)
    requires SegmentsDiffer(segs) && at <= |segs| && i < |segs|
             && (landed ==> at < |segs| && !IsLocal(topo, segs[at].region))
    ensures Holding(Rows(topo, b, segs[..at], false), b, SlotOf(segs[i])) + Holding(OwnRow(topo, b, segs, at, landed),
        b, SlotOf(segs[i]))
         == if !IsLocal(topo, segs[i].region) && (i < at || (i == at && landed)) then 1 else 0
  {
    if i < at {
      RowsOfSegment(topo, b, segs[..at], false, i);
    } else {
      NoRowElsewhere(topo, b, segs[..at], false, SlotOf(segs[i]));
    }
    if landed && at < |segs| {
      OneRow(b, SlotOf(segs[at]), SlotOf(segs[i]));
      if i != at { assert segs[i].segmentId != segs[at].segmentId; }
    }
  }

  /** After any saga, the peer has exactly the remote segments reserved before the failing call, and that call's own
      segment if it landed, unless the release got through. */
  lemma PeerLeftovers(topo: Topology, db: Db, b: Id, segs: seq<RouteSegment>, at: nat, landed: bool, compensated: bool,
                      i: nat)
    requires SegmentsDiffer(segs) && at <= |segs| && i < |segs|
             && (landed ==> at < |segs| && !IsLocal(topo, segs[at].region))
    requires Unheard(db, b)
    ensures Holding(PeerAfter(topo, db, b, segs, at, landed, compensated).reservations, b, SlotOf(segs[i]))
         == if !compensated && !IsLocal(topo, segs[i].region) && (i < at || (i == at && landed)) then 1 else 0
  {
    var slot := SlotOf(segs[i]);
    var reserved, own := Rows(topo, b, segs[..at], false), OwnRow(topo, b, segs, at, landed);
    UnheardHoldsNothing(db.reservations, b, slot);
    HoldingSplits(db.reservations, reserved, b, slot);
    HoldingSplits(db.reservations + reserved, own, b, slot);
    HoldingAfterRelease(db.reservations + reserved + own, ALL_SCHEMAS, b, b, slot);
    AllSchemas(slot.schema);
    ReservedThere(topo, b, segs, at, landed, i);
  }

  /** At home, a committed saga has exactly its local segments, unless it released them; any other saga has nothing. */
  lemma HomeLeftovers(topo: Topology, db: Db, b: Id, booking: Booking, segs: seq<RouteSegment>, saved: bool,
                      released: bool, i: nat)
    requires SegmentsDiffer(segs) && i < |segs| && Unheard(db, b)
    ensures Holding(HomeAfter(topo, db, b, booking, segs, saved, released).reservations, b, SlotOf(segs[i]))
         == if saved && !released && IsLocal(topo, segs[i].region) then 1 else 0
  {
    var slot, rows := SlotOf(segs[i]), Rows(topo, b, segs, true);
    UnheardHoldsNothing(db.reservations, b, slot);
    HoldingSplits(db.reservations, rows, b, slot);
    HoldingAfterRelease(db.reservations + rows, ALL_SCHEMAS, b, b, slot);
    AllSchemas(slot.schema);
    RowsOfSegment(topo, b, segs, true, i);
  }

  /** No saga touches what another booking has, on either VM. */
  lemma OthersKeepTheirs(topo: Topology, home: Db, peer: Db, b: Id, booking: Booking, segs: seq<RouteSegment>, at: nat,
                         landed: bool, saved: bool, released: bool, compensated: bool, c: Id, slot: Slot)
    requires at <= |segs| && c != b
    ensures Holding(HomeAfter(topo, home, b, booking, segs, saved, released).reservations, c, slot)
            == Holding(home.reservations, c, slot)
    ensures Holding(PeerAfter(topo, peer, b, segs, at, landed, compensated).reservations, c, slot)
            == Holding(peer.reservations, c, slot)
  {
    var rows, reserved, own := Rows(topo, b, segs, true), Rows(topo, b, segs[..at], false),
        OwnRow(topo, b, segs, at, landed);
    RowsBelong(topo, b, segs, true);
    RowsBelong(topo, b, segs[..at], false);
    UnheardHoldsNothing(rows, c, slot);
    UnheardHoldsNothing(reserved, c, slot);
    UnheardHoldsNothing(own, c, slot);
    HoldingSplits(home.reservations, rows, c, slot);
    HoldingSplits(peer.reservations, reserved, c, slot);
    HoldingSplits(peer.reservations + reserved, own, c, slot);
    HoldingAfterRelease(home.reservations + rows, ALL_SCHEMAS, b, c, slot);
    HoldingAfterRelease(peer.reservations + reserved + own, ALL_SCHEMAS, b, c, slot);
  }

  // ---- create_booking ----

  datatype CreateResult = Created | RegionDown | RolledBack

  /** The final write of the booking's status, in a transaction of its own. */
  method WriteStatus(session: Session, b: Id, booking: Booking)
    requires session.Valid() && !session.active
    modifies session, session.server
    ensures session.Valid() && session.server.db
            == old(session.server.db).(bookings := old(session.server.db).bookings[b := booking])
  {
    session.Begin();
    session.view := session.view.(bookings := session.view.bookings[b := booking]);
    MergeAlone(session.base, session.view);
    var committed := session.Commit();
  }

  /** The release is run at the peer: the saga failed, the release was delivered, some earlier segment is remote, and
      the failure was not that the peer could not be reached. */
  lemma CompensatesIff(topo: Topology, b: Id, segs: seq<RouteSegment>, faults: seq<Fault>, at: nat, ok: bool,
                       delivers: bool)
    requires |faults| == |segs| && at <= |segs|
    ensures Compensates(topo, b, segs, faults, at, ok, delivers) <==>
              && !ok && delivers && (exists k :: 0 <= k < at && !IsLocal(topo, segs[k].region))
              && !(at < |segs| && !IsLocal(topo, segs[at].region) && faults[at].Unreachable?)
  {
    RowsIffRemote(topo, b, segs[..at]);
    assert forall k :: 0 <= k < at ==> segs[..at][k] == segs[k];
  }

  lemma {:induction false} RowsIffRemote(topo: Topology, b: Id, segs: seq<RouteSegment>)
    ensures Rows(topo, b, segs, false) != [] <==> exists k :: 0 <= k < |segs| && !IsLocal(topo, segs[k].region)
  {
    if segs != [] {
      var n := |segs| - 1;
      RowsIffRemote(topo, b, segs[..n]);
      assert forall k :: 0 <= k < n ==> segs[..n][k] == segs[k];
      if !IsLocal(topo, segs[n].region) { assert Rows(topo, b, segs, false)[|Rows(topo, b, segs[..n], false)|]
          == Row(b, SlotOf(segs[n])); }
    }
  }

  /** What the booking has of segment `i` on both VMs, once its saga stopped at segment `at`; `ok` says that it returned
      normally. */
  ghost predicate EndsHoldingAt(topo: Topology, b: Id, segs: seq<RouteSegment>, faults: seq<Fault>, at: nat,
                                landed: bool, ok: bool, releases: bool, delivers: bool, home: seq<Reservation>,
                                peer: seq<Reservation>, i: nat)
    requires |faults| == |segs| && at <= |segs| && i < |segs|
  {
    && Holding(home, b, SlotOf(segs[i]))
         == (if IsLocal(topo, segs[i].region) && at == |segs| && (ok || !releases) then 1 else 0)
    && Holding(peer, b, SlotOf(segs[i])) ==
         (if !IsLocal(topo, segs[i].region) && (i < at || (i == at && landed))
             && !Compensates(topo, b, segs, faults, at, ok, delivers) then 1 else 0)
  }

  ghost predicate EndsHolding(topo: Topology, b: Id, segs: seq<RouteSegment>, faults: seq<Fault>, at: nat, landed: bool,
                              ok: bool, releases: bool, delivers: bool, home: seq<Reservation>, peer: seq<Reservation>)
    requires |faults| == |segs| && at <= |segs|
  {
    forall i :: 0 <= i < |segs| ==>
      EndsHoldingAt(topo, b, segs, faults, at, landed, ok, releases, delivers, home, peer, i)
  }

  /** The rows for a segment in a table: exactly one, and confirmed, or none. */
  ghost predicate RowsAre(rows: seq<Reservation>, b: Id, seg: RouteSegment, reserved: bool) {
    if reserved then ReservedOnce(rows, b, seg.region, seg.segmentId, seg.slotStart)
    else NotReserved(rows, b, seg.region, seg.segmentId, seg.slotStart)
  }

  ghost predicate OwnConfirmed(rows: seq<Reservation>, b: Id) {
    forall r :: r in rows && r.booking == b ==> r.status == Confirmed || r.status == Cancelled
  }

  lemma HoldingIsRows(rows: seq<Reservation>, b: Id, seg: RouteSegment, reserved: bool)
    requires OwnConfirmed(rows, b) && Holding(rows, b, SlotOf(seg)) == if reserved then 1 else 0
    ensures RowsAre(rows, b, seg, reserved)
  {
    NothingHeld(rows, b, seg.region, seg.segmentId, seg.slotStart);
    OneHeld(rows, b, seg.region, seg.segmentId, seg.slotStart);
  }

  /** With `ok` or without, every row the saga writes for the booking is confirmed or cancelled. */
  lemma SagaRowsAreConfirmed(topo: Topology, home: Db, peer: Db, b: Id, booking: Booking, segs: seq<RouteSegment>,
                             at: nat, landed: bool, saved: bool, released: bool, compensated: bool)
    requires at <= |segs| && Unheard(home, b) && Unheard(peer, b)
    ensures OwnConfirmed(HomeAfter(topo, home, b, booking, segs, saved, released).reservations, b)
    ensures OwnConfirmed(PeerAfter(topo, peer, b, segs, at, landed, compensated).reservations, b)
    ensures OwnConfirmed(HomeAfter(topo, home, b, booking, segs, saved, released).segmentRows, b)
  {
    RowsBelong(topo, b, segs, true);
    RowsBelong(topo, b, segs[..at], false);
    ReleasedStaysConfirmed(home.reservations + Rows(topo, b, segs, true), b);
    ReleasedStaysConfirmed(peer.reservations + Rows(topo, b, segs[..at], false) + OwnRow(topo, b, segs, at, landed), b);
  }

  lemma ReleasedStaysConfirmed(rows: seq<Reservation>, b: Id)
    requires OwnConfirmed(rows, b)
    ensures OwnConfirmed(Released(rows, ALL_SCHEMAS, b), b)
  {
    forall i | 0 <= i < |rows|
      ensures Released(rows, ALL_SCHEMAS, b)[i].booking == b ==>
        Released(rows, ALL_SCHEMAS, b)[i].status in {Confirmed, Cancelled}
    {
      assert rows[i] in rows;
    }
  }

  /** The public rows of a saga: one for each local segment, once it has committed. */
  lemma PublicRowsAre(topo: Topology, db: Db, b: Id, booking: Booking, segs: seq<RouteSegment>, saved: bool,
                      released: bool, i: nat)
    requires SegmentsDiffer(segs) && i < |segs| && Unheard(db, b)
    ensures RowsAre(HomeAfter(topo, db, b, booking, segs, saved, released).segmentRows, b, segs[i],
                    saved && IsLocal(topo, segs[i].region))
  {
    var rows := Rows(topo, b, segs, true);
    UnheardHoldsNothing(db.segmentRows, b, SlotOf(segs[i]));
    HoldingSplits(db.segmentRows, rows, b, SlotOf(segs[i]));
    RowsOfSegment(topo, b, segs, true, i);
    SagaRowsAreConfirmed(topo, db, db, b, booking, segs, 0, false, saved, released, false);
    HoldingIsRows(HomeAfter(topo, db, b, booking, segs, saved, released).segmentRows, b, segs[i],
                  saved && IsLocal(topo, segs[i].region));
  }

  /** Every other booking has what it had. */
  ghost predicate OthersKeep(b: Id, before: seq<Reservation>, after: seq<Reservation>) {
    forall c, slot :: c != b ==> Holding(after, c, slot) == Holding(before, c, slot)
  }

  /** After a success, every segment of the route has exactly one row, confirmed, at its owner and nowhere else, for the
      very hour of its slot; a local one also in public. */
  lemma SuccessHoldsEachSegmentOnce(topo: Topology, home: Db, peer: Db, b: Id, booking: Booking,
                                    segs: seq<RouteSegment>, i: nat)
    requires SegmentsDiffer(segs) && i < |segs| && Unheard(home, b) && Unheard(peer, b)
    ensures var home' := HomeAfter(topo, home, b, booking, segs, true, false);
            var peer' := PeerAfter(topo, peer, b, segs, |segs|, false, false);
            var region, id, start := segs[i].region, segs[i].segmentId, segs[i].slotStart;
            && (IsLocal(topo, region) ==>
                  && ReservedOnce(home'.reservations, b, region, id, start)
                  && ReservedOnce(home'.segmentRows, b, region, id, start)
                  && NotReserved(peer'.reservations, b, region, id, start))
            && (!IsLocal(topo, region) ==>
                  && NotReserved(home'.reservations, b, region, id, start)
                  && NotReserved(home'.segmentRows, b, region, id, start)
                  && ReservedOnce(peer'.reservations, b, region, id, start))
  {
    HomeLeftovers(topo, home, b, booking, segs, true, false, i);
    PeerLeftovers(topo, peer, b, segs, |segs|, false, false, i);
    PublicRowsAre(topo, home, b, booking, segs, true, false, i);
    SagaRowsAreConfirmed(topo, home, peer, b, booking, segs, |segs|, false, true, false, false);
    HoldingIsRows(HomeAfter(topo, home, b, booking, segs, true, false).reservations, b, segs[i],
                  IsLocal(topo, segs[i].region));
    HoldingIsRows(PeerAfter(topo, peer, b, segs, |segs|, false, false).reservations, b, segs[i],
                  !IsLocal(topo, segs[i].region));
  }

  /** Whether segment `i` keeps a row at the peer: it was reserved there, or its call failed after it had run, and no
      release was run, which takes a failure other than an unreachable peer, an earlier remote segment, and the
      delivery. */
  ghost predicate KeptAtPeer(topo: Topology, segs: seq<RouteSegment>, faults: seq<Fault>, at: nat, landed: bool,
                             ok: bool, delivers: bool, i: nat)
    requires |faults| == |segs| && at <= |segs| && i < |segs|
  {
    && !IsLocal(topo, segs[i].region) && (i < at || (i == at && landed))
    && (ok || !delivers || (forall k :: 0 <= k < at ==> IsLocal(topo, segs[k].region))
        || (at < |segs| && !IsLocal(topo, segs[at].region) && faults[at].Unreachable?))
  }

  /** The rows of every segment, in the three tables that may have one. */
  ghost predicate EndsWithRows(topo: Topology, b: Id, segs: seq<RouteSegment>, faults: seq<Fault>, at: nat,
                               landed: bool, ok: bool, releases: bool, delivers: bool, home: Db, peer: Db)
    requires |faults| == |segs| && at <= |segs|
  {
    forall i :: 0 <= i < |segs| ==>
      && RowsAre(home.reservations, b, segs[i], IsLocal(topo, segs[i].region) && at == |segs| && (ok || !releases))
      && RowsAre(home.segmentRows, b, segs[i], IsLocal(topo, segs[i].region) && at == |segs|)
      && RowsAre(peer.reservations, b, segs[i], KeptAtPeer(topo, segs, faults, at, landed, ok, delivers, i))
  }

  /** The saga under its flushed but uncommitted booking row. */
  method RunSaga(session: Session, peer: Server, topo: Topology, caps: Capacities, peerCaps: Capacities, b: Id,
                 booking: Booking, segs: seq<RouteSegment>, faults: seq<Fault>, publishes: bool, releases: bool,
                 delivers: bool)
    returns (r: CreateResult, ghost at: nat, ghost landed: bool)
    requires session.Valid() && !session.active && session.server != peer && |faults| == |segs| && SegmentsDiffer(segs)
    requires b !in session.server.db.bookings && Unheard(session.server.db, b) && Unheard(peer.db, b)
    modifies session, session.server, peer
    ensures session.Valid() && !session.active
    ensures StopsAt(topo, caps, peerCaps, old(session.server.db).reservations, old(peer.db).reservations, b, segs,
                    faults, at)
    ensures landed <==> LandsAt(topo, peerCaps, old(peer.db).reservations, b, segs, faults, at)
    ensures r == Created <==> at == |segs| && publishes
    ensures r == RegionDown <==> PeerDown(topo, segs, faults, at) && publishes
    ensures session.server.db
         == HomeAfter(topo, old(session.server.db), b, booking, segs, at == |segs|, r != Created && releases)
    ensures peer.db == PeerAfter(topo, old(peer.db), b, segs, at, landed,
                                 Compensates(topo, b, segs, faults, at, r == Created, delivers))
    ensures EndsWithRows(topo, b, segs, faults, at, landed, r == Created, releases, delivers, session.server.db,
                         peer.db)
    ensures OthersKeep(b, old(session.server.db).reservations, session.server.db.reservations)
    ensures OthersKeep(b, old(peer.db).reservations, peer.db.reservations)
  {
    session.Begin();
    session.view := session.view.(bookings := session.view.bookings[b := booking]);
    ghost var home0, peer0 := session.server.db, peer.db;
    var ok, unavailable;
    ok, unavailable, at, landed := ExecuteBookingSaga(session, peer, topo, caps, peerCaps, b, booking, segs, faults,
                                                      publishes, releases, delivers);
    r := if ok then Created else if unavailable && publishes then RegionDown else RolledBack;
    Outcome(topo, home0, peer0, b, booking, segs, faults, at, landed, ok, releases, delivers);
    OutcomeInRows(topo, home0, peer0, b, booking, segs, faults, at, landed, ok, releases, delivers);
  }

  lemma Outcome(topo: Topology, home: Db, peer: Db, b: Id, booking: Booking, segs: seq<RouteSegment>,
                faults: seq<Fault>, at: nat, landed: bool, ok: bool, releases: bool, delivers: bool)
    requires |faults| == |segs| && SegmentsDiffer(segs) && at <= |segs|
             && (landed ==> at < |segs| && !IsLocal(topo, segs[at].region))
    requires Unheard(home, b) && Unheard(peer, b)
    ensures var home' := HomeAfter(topo, home, b, booking, segs, at == |segs|, !ok && releases).reservations;
            var peer' := PeerAfter(topo, peer, b, segs, at, landed,
                                   Compensates(topo, b, segs, faults, at, ok, delivers)).reservations;
            && EndsHolding(topo, b, segs, faults, at, landed, ok, releases, delivers, home', peer')
            && OthersKeep(b, home.reservations, home') && OthersKeep(b, peer.reservations, peer')
  {
    var released, compensated := !ok && releases, Compensates(topo, b, segs, faults, at, ok, delivers);
    var home' := HomeAfter(topo, home, b, booking, segs, at == |segs|, released).reservations;
    var peer' := PeerAfter(topo, peer, b, segs, at, landed, compensated).reservations;
    forall i | 0 <= i < |segs|
      ensures EndsHoldingAt(topo, b, segs, faults, at, landed, ok, releases, delivers, home', peer', i)
    {
      HomeLeftovers(topo, home, b, booking, segs, at == |segs|, released, i);
      PeerLeftovers(topo, peer, b, segs, at, landed, compensated, i);
    }
    forall c, slot | c != b {
      OthersKeepTheirs(topo, home, peer, b, booking, segs, at, landed, at == |segs|, released, compensated, c, slot);
    }
  }

  lemma OutcomeInRows(topo: Topology, home: Db, peer: Db, b: Id, booking: Booking, segs: seq<RouteSegment>,
                      faults: seq<Fault>, at: nat, landed: bool, ok: bool, releases: bool, delivers: bool)
    requires |faults| == |segs| && SegmentsDiffer(segs) && at <= |segs|
             && (landed ==> at < |segs| && !IsLocal(topo, segs[at].region))
    requires Unheard(home, b) && Unheard(peer, b)
    ensures var home' := HomeAfter(topo, home, b, booking, segs, at == |segs|, !ok && releases);
            var peer' := PeerAfter(topo, peer, b, segs, at, landed,
                                   Compensates(topo, b, segs, faults, at, ok, delivers));
            EndsWithRows(topo, b, segs, faults, at, landed, ok, releases, delivers, home', peer')
  {
    var released, compensated := !ok && releases, Compensates(topo, b, segs, faults, at, ok, delivers);
    var home' := HomeAfter(topo, home, b, booking, segs, at == |segs|, released);
    var peer' := PeerAfter(topo, peer, b, segs, at, landed, compensated);
    Outcome(topo, home, peer, b, booking, segs, faults, at, landed, ok, releases, delivers);
    CompensatesIff(topo, b, segs, faults, at, ok, delivers);
    SagaRowsAreConfirmed(topo, home, peer, b, booking, segs, at, landed, at == |segs|, released, compensated);
    forall i | 0 <= i < |segs|
      ensures RowsAre(home'.reservations, b, segs[i], IsLocal(topo, segs[i].region) && at == |segs|
              && (ok || !releases))
      ensures RowsAre(home'.segmentRows, b, segs[i], IsLocal(topo, segs[i].region) && at == |segs|)
      ensures RowsAre(peer'.reservations, b, segs[i], KeptAtPeer(topo, segs, faults, at, landed, ok, delivers, i))
    {
      assert EndsHoldingAt(topo, b, segs, faults, at, landed, ok, releases, delivers, home'.reservations,
                           peer'.reservations, i);
      HoldingIsRows(home'.reservations, b, segs[i], IsLocal(topo, segs[i].region) && at == |segs| && (ok || !releases));
      HoldingIsRows(peer'.reservations, b, segs[i], KeptAtPeer(topo, segs, faults, at, landed, ok, delivers, i));
      PublicRowsAre(topo, home, b, booking, segs, at == |segs|, released, i);
    }
  }

  /** After a success there is exactly one row per segment, confirmed, at its owner and nowhere else. */
  lemma CreatedRows(topo: Topology, b: Id, segs: seq<RouteSegment>, faults: seq<Fault>, releases: bool, delivers: bool,
                    home: Db, peer: Db)
    requires |faults| == |segs|
    requires EndsWithRows(topo, b, segs, faults, |segs|, false, true, releases, delivers, home, peer)
    ensures forall i :: 0 <= i < |segs| ==>
      var region, id, start := segs[i].region, segs[i].segmentId, segs[i].slotStart;
      && (IsLocal(topo, region) ==>
            && ReservedOnce(home.reservations, b, region, id, start)
            && ReservedOnce(home.segmentRows, b, region, id, start)
            && NotReserved(peer.reservations, b, region, id, start))
      && (!IsLocal(topo, region) ==>
            && NotReserved(home.reservations, b, region, id, start)
            && NotReserved(home.segmentRows, b, region, id, start)
            && ReservedOnce(peer.reservations, b, region, id, start))
  {
    forall i | 0 <= i < |segs|
      ensures KeptAtPeer(topo, segs, faults, |segs|, false, true, delivers, i) == !IsLocal(topo, segs[i].region)
    {}
  }

  /** An unreachable peer is never told to release: it keeps every remote segment reserved before. */
  lemma RegionDownRows(topo: Topology, b: Id, segs: seq<RouteSegment>, faults: seq<Fault>, at: nat, landed: bool,
                       releases: bool, delivers: bool, home: Db, peer: Db)
    requires |faults| == |segs| && at < |segs| && !IsLocal(topo, segs[at].region) && faults[at].Unreachable?
    requires EndsWithRows(topo, b, segs, faults, at, landed, false, releases, delivers, home, peer)
    ensures forall i :: 0 <= i < at && !IsLocal(topo, segs[i].region) ==>
      ReservedOnce(peer.reservations, b, segs[i].region, segs[i].segmentId, segs[i].slotStart)
  {
    forall i | 0 <= i < at && !IsLocal(topo, segs[i].region)
      ensures KeptAtPeer(topo, segs, faults, at, landed, false, delivers, i)
    {}
  }

  /** After any other failure a delivered release leaves nothing at the peer, if an earlier segment was reserved there.
      */
  lemma ReleasedRows(topo: Topology, b: Id, segs: seq<RouteSegment>, faults: seq<Fault>, at: nat, landed: bool,
                     ok: bool, releases: bool, delivers: bool, home: Db, peer: Db)
    requires |faults| == |segs| && at <= |segs|
    requires EndsWithRows(topo, b, segs, faults, at, landed, ok, releases, delivers, home, peer)
    ensures !ok && delivers && (exists k :: 0 <= k < at && !IsLocal(topo, segs[k].region))
            && !(at < |segs| && !IsLocal(topo, segs[at].region) && faults[at].Unreachable?)
            ==> forall i :: 0 <= i < |segs| ==>
                  NotReserved(peer.reservations, b, segs[i].region, segs[i].segmentId, segs[i].slotStart)
  {
    if !ok && delivers && (exists k :: 0 <= k < at && !IsLocal(topo, segs[k].region))
       && !(at < |segs| && !IsLocal(topo, segs[at].region) && faults[at].Unreachable?) {
      forall i | 0 <= i < |segs|
        ensures !KeptAtPeer(topo, segs, faults, at, landed, ok, delivers, i)
      {}
    }
  }

  /** `confirms` says whether the commit of the status CONFIRMED and the refresh after it succeed; if not, the booking
      is rejected with all its reservations in place. */
  method CreateBooking(home: Server, peer: Server, topo: Topology, caps: Capacities, peerCaps: Capacities, b: Id,
                       driver: Id, now: int, route: Resolution, faults: seq<Fault>, publishes: bool, releases: bool,
                       delivers: bool, confirms: bool)
    returns (r: CreateResult, ghost at: nat, ghost landed: bool)
    requires home != peer && b !in home.db.bookings && Unheard(home.db, b) && Unheard(peer.db, b)
    requires route.Resolved? ==> |faults| == |route.segments| && SegmentsDiffer(route.segments)
    modifies home, peer
    ensures home.db.bookings
         == old(home.db).bookings[b := Booking(driver, if r == Created then Confirmed else Rejected, now)]
    ensures OthersKeep(b, old(home.db).reservations, home.db.reservations)
            && OthersKeep(b, old(peer.db).reservations, peer.db.reservations)
    ensures route.RouteNotFound? ==>
      r == RolledBack && peer.db == old(peer.db) && home.db == old(home.db).(bookings := home.db.bookings)
    ensures route.Resolved? ==>
      var segs := route.segments;
      && StopsAt(topo, caps, peerCaps, old(home.db).reservations, old(peer.db).reservations, b, segs, faults, at)
      && (landed <==> LandsAt(topo, peerCaps, old(peer.db).reservations, b, segs, faults, at))
      && (r == Created <==> at == |segs| && publishes && confirms)
      && (r == RegionDown <==> at < |segs| && !IsLocal(topo, segs[at].region) && faults[at].Unreachable? && publishes)
      && EndsWithRows(topo, b, segs, faults, at, landed, at == |segs| && publishes, releases, delivers, home.db,
           peer.db)
      && home.db == HomeAfter(topo, old(home.db), b, Booking(driver, SagaInProgress, now), segs, at == |segs|,
                              !publishes && releases).(bookings := home.db.bookings)
      && peer.db == PeerAfter(topo, old(peer.db), b, segs, at, landed,
                              Compensates(topo, b, segs, faults, at, at == |segs| && publishes, delivers))
    ensures r == Created ==> route.Resolved? && forall i :: 0 <= i < |route.segments| ==>
      var region, id, start := route.segments[i].region, route.segments[i].segmentId, route.segments[i].slotStart;
      && (IsLocal(topo, region) ==>
            && ReservedOnce(home.db.reservations, b, region, id, start)
            && ReservedOnce(home.db.segmentRows, b, region, id, start)
            && NotReserved(peer.db.reservations, b, region, id, start))
      && (!IsLocal(topo, region) ==>
            && NotReserved(home.db.reservations, b, region, id, start)
            && NotReserved(home.db.segmentRows, b, region, id, start)
            && ReservedOnce(peer.db.reservations, b, region, id, start))
    ensures r == RegionDown ==> route.Resolved?
    ensures r == RegionDown ==> forall i :: 0 <= i < at && !IsLocal(topo, route.segments[i].region) ==>
      var seg := route.segments[i];
      ReservedOnce(peer.db.reservations, b, seg.region, seg.segmentId, seg.slotStart)
    ensures route.Resolved? && !(at == |route.segments| && publishes) && delivers
            && !(at < |route.segments| && !IsLocal(topo, route.segments[at].region) && faults[at].Unreachable?)
            && (exists k :: 0 <= k < at && !IsLocal(topo, route.segments[k].region)) ==>
      forall i :: 0 <= i < |route.segments| ==>
        var seg := route.segments[i];
        NotReserved(peer.db.reservations, b, seg.region, seg.segmentId, seg.slotStart)
  {
    r, at, landed := CreateUnderSession(home, peer, topo, caps, peerCaps, b, driver, now, route, faults, publishes,
                                        releases,
                                        delivers, confirms);
    if route.Resolved? {
      var segs := route.segments;
      if r == Created {
        CreatedRows(topo, b, segs, faults, releases, delivers, home.db, peer.db);
      } else if r == RegionDown {
        RegionDownRows(topo, b, segs, faults, at, landed, releases, delivers, home.db, peer.db);
      }
      ReleasedRows(topo, b, segs, faults, at, landed, at == |segs| && publishes, releases, delivers, home.db, peer.db);
    }
  }

  lemma SameRowsEnd(topo: Topology, b: Id, segs: seq<RouteSegment>, faults: seq<Fault>, at: nat, landed: bool, ok: bool,
                    releases: bool, delivers: bool, home: Db, home': Db, peer: Db)
    requires |faults| == |segs| && at <= |segs|
    requires home'.reservations == home.reservations && home'.segmentRows == home.segmentRows
    requires EndsWithRows(topo, b, segs, faults, at, landed, ok, releases, delivers, home, peer)
    ensures EndsWithRows(topo, b, segs, faults, at, landed, ok, releases, delivers, home', peer)
  {}

  /** The body of the call, in a session of its own. */
  method CreateUnderSession(home: Server, peer: Server, topo: Topology, caps: Capacities, peerCaps: Capacities, b: Id,
                            driver: Id, now: int, route: Resolution, faults: seq<Fault>, publishes: bool,
                            releases: bool, delivers: bool, confirms: bool)
    returns (r: CreateResult, ghost at: nat, ghost landed: bool)
    requires home != peer && b !in home.db.bookings && Unheard(home.db, b) && Unheard(peer.db, b)
    requires route.Resolved? ==> |faults| == |route.segments| && SegmentsDiffer(route.segments)
    modifies home, peer
    ensures home.db.bookings
         == old(home.db).bookings[b := Booking(driver, if r == Created then Confirmed else Rejected, now)]
    ensures OthersKeep(b, old(home.db).reservations, home.db.reservations)
            && OthersKeep(b, old(peer.db).reservations, peer.db.reservations)
    ensures route.RouteNotFound? ==>
      r == RolledBack && peer.db == old(peer.db) && home.db == old(home.db).(bookings := home.db.bookings)
    ensures route.Resolved? ==>
      var segs := route.segments;
      && StopsAt(topo, caps, peerCaps, old(home.db).reservations, old(peer.db).reservations, b, segs, faults, at)
      && (landed <==> LandsAt(topo, peerCaps, old(peer.db).reservations, b, segs, faults, at))
      && (r == Created <==> at == |segs| && publishes && confirms)
      && (r == RegionDown <==> PeerDown(topo, segs, faults, at) && publishes)
      && EndsWithRows(topo, b, segs, faults, at, landed, at == |segs| && publishes, releases, delivers, home.db,
           peer.db)
      && home.db == HomeAfter(topo, old(home.db), b, Booking(driver, SagaInProgress, now), segs, at == |segs|,
                              !publishes && releases).(bookings := home.db.bookings)
      && peer.db == PeerAfter(topo, old(peer.db), b, segs, at, landed,
                              Compensates(topo, b, segs, faults, at, at == |segs| && publishes, delivers))
  {
    at, landed := 0, false;
    var session := new Session(home);
    if route.RouteNotFound? {
      r := RolledBack;
    } else {
      r, at, landed := RunSaga(session, peer, topo, caps, peerCaps, b, Booking(driver, SagaInProgress, now),
                               route.segments, faults, publishes, releases, delivers);
      if r == Created && !confirms { r := RolledBack; }
    }
    ghost var before := home.db;
    WriteStatus(session, b, Booking(driver, if r == Created then Confirmed else Rejected, now));
    if route.Resolved? {
      SameRowsEnd(topo, b, route.segments, faults, at, landed, at == |route.segments| && publishes, releases, delivers,
                  before, home.db, peer.db);
    }
  }

  // ---- The hour that is reserved ----

  /** Whoever has exactly one row for a segment of a resolved route has it for the edge of the path, in its own region,
      in the whole hour during which the driver enters it. */
  lemma ReservedHourHoldsEntry(path: seq<SegmentEdge>, departure: int, segs: seq<RouteSegment>, rows: seq<Reservation>,
                               b: Id, i: nat)
    returns (r: Reservation)
    requires IsTimetable(path, departure, segs) && i < |segs|
    requires ReservedOnce(rows, b, segs[i].region, segs[i].segmentId, segs[i].slotStart)
    ensures r in rows && r.booking == b && r.status == Confirmed
    ensures r.slot.schema == path[i].region && r.slot.segmentId == path[i].segmentId
    ensures r.slot.start % HOUR == 0 && r.slot.start <= EntryTime(path, departure, i) < r.slot.start + HOUR
  {
    var k :| 0 <= k < |rows| && IsFor(rows[k], b, segs[i].region, segs[i].segmentId, segs[i].slotStart)
          && rows[k].status == Confirmed;
    r := rows[k];
  }
}
