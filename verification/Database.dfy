/** One VM's database, sessions over it under REPEATABLE READ, and the three capacity operations. */
module Database {
  import opened Basics
  import opened RoadGraph
  import opened Timetable

  datatype Status = Pending | Confirmed | Rejected | Cancelled | SagaInProgress

  /** A segment for one hour, in the schema that owns it. */
  datatype Slot = Slot(schema: Region, segmentId: string, start: int)

  /** The slot under which `check_capacity` counts. */
  function Counted(slot: Slot): Slot { slot.(start := HourOf(slot.start)) }

  datatype Reservation = Reservation(booking: Id, slot: Slot, status: Status)

  datatype Booking = Booking(driver: Id, status: Status, createdAt: int)

  /** Rows are only appended and updated in place, so a table is a sequence. `segmentRows` is
      public.segment_reservations. */
  datatype Db = Db(bookings: map<Id, Booking>, reservations: seq<Reservation>, segmentRows: seq<Reservation>)

  // ---- Reading and updating a reservation table ----

  predicate Active(r: Reservation) { r.status != Cancelled && r.status != Rejected }

  /** COUNT(*) of the active rows of a slot. */
  function Booked(rows: seq<Reservation>, slot: Slot): nat {
    if rows == [] then 0
    else Booked(rows[..|rows| - 1], slot) + (if rows[|rows| - 1].slot == slot && Active(rows[|rows| - 1]) then 1 else 0)
  }

  /** max_capacity_per_slot of every known segment. */
  type Capacities = map<(Region, string), nat>

  predicate HasRoom(caps: Capacities, rows: seq<Reservation>, slot: Slot) {
    (slot.schema, slot.segmentId) in caps && Booked(rows, Counted(slot)) < caps[(slot.schema, slot.segmentId)]
  }

  /** The active rows of one booking in one slot. */
  function Holding(rows: seq<Reservation>, b: Id, slot: Slot): nat {
    if rows == [] then 0
    else Holding(rows[..|rows| - 1], b, slot)
         + (if rows[|rows| - 1].booking == b && rows[|rows| - 1].slot == slot && Active(rows[|rows| - 1]) then 1 else 0)
  }

  /** The row is one of the booking's for this segment and hour, and neither cancelled nor rejected. */
  predicate IsFor(r: Reservation, b: Id, schema: Region, segmentId: string, start: int) {
    && r.booking == b && r.slot.schema == schema && r.slot.segmentId == segmentId && r.slot.start == start
    && r.status != Cancelled && r.status != Rejected
  }

  /** The booking has exactly one row for the segment and hour, and that is confirmed. */
  ghost predicate ReservedOnce(rows: seq<Reservation>, b: Id, schema: Region, segmentId: string, start: int) {
    exists i :: 0 <= i < |rows| && IsFor(rows[i], b, schema, segmentId, start) && rows[i].status == Confirmed
             && forall j :: 0 <= j < |rows| && IsFor(rows[j], b, schema, segmentId, start) ==> j == i
  }

  ghost predicate NotReserved(rows: seq<Reservation>, b: Id, schema: Region, segmentId: string, start: int) {
    forall i :: 0 <= i < |rows| ==> !IsFor(rows[i], b, schema, segmentId, start)
  }

  lemma {:induction false} NothingHeld(rows: seq<Reservation>, b: Id, schema: Region, segmentId: string, start: int)
    ensures Holding(rows, b, Slot(schema, segmentId, start)) == 0 <==> NotReserved(rows, b, schema, segmentId, start)
  {
    if rows != [] {
      var init, last := rows[..|rows| - 1], rows[|rows| - 1];
      NothingHeld(init, b, schema, segmentId, start);
      assert rows == init + [last];
      if NotReserved(rows, b, schema, segmentId, start) {
        forall i | 0 <= i < |init| ensures !IsFor(init[i], b, schema, segmentId, start) { assert rows[i] == init[i]; }
        assert !IsFor(rows[|rows| - 1], b, schema, segmentId, start);
      }
    }
  }

  /** Holding one place is having exactly one row for it. */
  lemma {:induction false} OneHeld(rows: seq<Reservation>, b: Id, schema: Region, segmentId: string, start: int)
    requires forall r :: r in rows && IsFor(r, b, schema, segmentId, start) ==> r.status == Confirmed
    ensures Holding(rows, b, Slot(schema, segmentId, start)) == 1 <==> ReservedOnce(rows, b, schema, segmentId, start)
  {
    if rows != [] {
      var n := |rows| - 1;
      var init := rows[..n];
      NothingHeld(init, b, schema, segmentId, start);
      OneHeld(init, b, schema, segmentId, start);
      assert forall i :: 0 <= i < n ==> rows[i] == init[i];
      if IsFor(rows[n], b, schema, segmentId, start) {
        OnlyTheLast(rows, b, schema, segmentId, start);
      } else {
        SameWithoutLast(rows, b, schema, segmentId, start);
      }
    }
  }

  lemma OnlyTheLast(rows: seq<Reservation>, b: Id, schema: Region, segmentId: string, start: int)
    requires rows != [] && IsFor(rows[|rows| - 1], b, schema, segmentId, start) && rows[|rows| - 1].status == Confirmed
    ensures ReservedOnce(rows, b, schema, segmentId, start)
       <==> NotReserved(rows[..|rows| - 1], b, schema, segmentId, start)
  {
    var n := |rows| - 1;
    assert forall i :: 0 <= i < n ==> rows[..n][i] == rows[i];
    if NotReserved(rows[..n], b, schema, segmentId, start) {
      forall j | 0 <= j < |rows| && IsFor(rows[j], b, schema, segmentId, start)
        ensures j == n
      {}
    }
  }

  lemma SameWithoutLast(rows: seq<Reservation>, b: Id, schema: Region, segmentId: string, start: int)
    requires rows != [] && !IsFor(rows[|rows| - 1], b, schema, segmentId, start)
    ensures ReservedOnce(rows, b, schema, segmentId, start)
       <==> ReservedOnce(rows[..|rows| - 1], b, schema, segmentId, start)
  {
    var n := |rows| - 1;
    assert forall i :: 0 <= i < n ==> rows[..n][i] == rows[i];
    if ReservedOnce(rows, b, schema, segmentId, start) {
      var i :| 0 <= i < |rows| && IsFor(rows[i], b, schema, segmentId, start) && rows[i].status == Confirmed
            && forall j :: 0 <= j < |rows| && IsFor(rows[j], b, schema, segmentId, start) ==> j == i;
      assert IsFor(rows[..n][i], b, schema, segmentId, start);
    }
    if ReservedOnce(rows[..n], b, schema, segmentId, start) {
      var i :| 0 <= i < n && IsFor(rows[..n][i], b, schema, segmentId, start) && rows[..n][i].status == Confirmed
            && forall j :: 0 <= j < n && IsFor(rows[..n][j], b, schema, segmentId, start) ==> j == i;
      assert IsFor(rows[i], b, schema, segmentId, start);
      forall j | 0 <= j < |rows| && IsFor(rows[j], b, schema, segmentId, start)
        ensures j == i
      {
        assert j < n && rows[..n][j] == rows[j];
      }
    }
  }

  /** Where the rows of the slot are that are neither cancelled nor rejected. */
  ghost function Takings(rows: seq<Reservation>, slot: Slot): set<int> {
    set i | 0 <= i < |rows| && rows[i].slot == slot && rows[i].status != Cancelled && rows[i].status != Rejected
  }

  lemma TakingsGrow(rows: seq<Reservation>, slot: Slot)
    requires rows != []
    ensures var n := |rows| - 1;
            && n !in Takings(rows[..n], slot)
            && Takings(rows, slot) == Takings(rows[..n], slot)
                 + if rows[n].slot == slot && rows[n].status != Cancelled && rows[n].status != Rejected then {n} else {}
  {}

  /** The count is the number of those rows. */
  lemma {:induction false} BookedCounts(rows: seq<Reservation>, slot: Slot)
    ensures Booked(rows, slot) == |Takings(rows, slot)|
  {
    if rows != [] {
      BookedCounts(rows[..|rows| - 1], slot);
      TakingsGrow(rows, slot);
    }
  }

  /** UPDATE ... SET status = 'CANCELLED' WHERE hit */
  function CancelWhere(rows: seq<Reservation>, hit: Reservation -> bool): (r: seq<Reservation>)
    ensures |r| == |rows|
  {
    seq(|rows|, i requires 0 <= i < |rows| => if hit(rows[i]) then rows[i].(status := Cancelled) else rows[i])
  }

  function Released(rows: seq<Reservation>, schemas: set<Region>, b: Id): seq<Reservation> {
    CancelWhere(rows, (r: Reservation) => r.booking == b && r.slot.schema in schemas)
  }

  const ALL_SCHEMAS: set<Region> := {Ireland, Uk, France}

  /** REGION_SCHEMA_MAP.values() */
  const SCHEMAS: seq<Region> := [Ireland, Uk, France]

  lemma AllSchemas(s: Region)
    ensures s in ALL_SCHEMAS
  {
    match s { case Ireland => case Uk => case France => }
  }

  lemma {:induction false} BookedSplits(xs: seq<Reservation>, ys: seq<Reservation>, slot: Slot)
    ensures Booked(xs + ys, slot) == Booked(xs, slot) + Booked(ys, slot)
  {
    if ys == [] {
      assert xs + ys == xs;
    } else {
      BookedSplits(xs, ys[..|ys| - 1], slot);
      assert (xs + ys)[..|xs + ys| - 1] == xs + ys[..|ys| - 1];
    }
  }

  lemma {:induction false} HoldingSplits(xs: seq<Reservation>, ys: seq<Reservation>, b: Id, slot: Slot)
    ensures Holding(xs + ys, b, slot) == Holding(xs, b, slot) + Holding(ys, b, slot)
  {
    if ys == [] {
      assert xs + ys == xs;
    } else {
      HoldingSplits(xs, ys[..|ys| - 1], b, slot);
      assert (xs + ys)[..|xs + ys| - 1] == xs + ys[..|ys| - 1];
    }
  }

  lemma {:induction false} UnheardHoldsNothing(rows: seq<Reservation>, b: Id, slot: Slot)
    requires forall r :: r in rows ==> r.booking != b
    ensures Holding(rows, b, slot) == 0
  {
    if rows != [] {
      UnheardHoldsNothing(rows[..|rows| - 1], b, slot);
      assert rows[|rows| - 1] in rows;
    }
  }

  lemma {:induction false} CancellingNeverAdds(rows: seq<Reservation>, hit: Reservation -> bool, slot: Slot)
    ensures Booked(CancelWhere(rows, hit), slot) <= Booked(rows, slot)
  {
    if rows != [] {
      var init := rows[..|rows| - 1];
      CancellingNeverAdds(init, hit, slot);
      assert CancelWhere(rows, hit)[..|rows| - 1] == CancelWhere(init, hit);
    }
  }

  lemma {:induction false} HoldingAfterRelease(rows: seq<Reservation>, schemas: set<Region>, b: Id, c: Id, slot: Slot)
    ensures Holding(Released(rows, schemas, b), c, slot) == if b == c
            && slot.schema in schemas then 0 else Holding(rows, c, slot)
  {
    if rows != [] {
      HoldingAfterRelease(rows[..|rows| - 1], schemas, b, c, slot);
      assert Released(rows, schemas, b)[..|rows| - 1] == Released(rows[..|rows| - 1], schemas, b);
    }
  }

  // ---- Sessions ----

  /** What a committing session leaves behind: its own changes over whatever others committed since its snapshot. */
  function Overlay(base: seq<Reservation>, view: seq<Reservation>, current: seq<Reservation>): seq<Reservation>
    requires |base| <= |view| && |base| <= |current|
  {
    seq(|current|, i requires 0 <= i < |current| => if i < |base| && view[i] != base[i] then view[i] else current[i])
    + view[|base|..]
  }

  function MergedBookings(base: map<Id, Booking>, view: map<Id, Booking>, current: map<Id, Booking>): map<Id, Booking> {
    map b | b in current.Keys + view.Keys :: if b in view
        && (b !in base || b !in current || view[b] != base[b]) then view[b] else current[b]
  }

  function Merged(base: Db, view: Db, current: Db): Db
    requires Extends(base, view) && Extends(base, current)
  {
    Db(MergedBookings(base.bookings, view.bookings, current.bookings),
       Overlay(base.reservations, view.reservations, current.reservations),
       Overlay(base.segmentRows, view.segmentRows, current.segmentRows))
  }

  /** No row of `older` has been deleted. */
  predicate Extends(older: Db, newer: Db) {
    && |older.reservations| <= |newer.reservations| && |older.segmentRows| <= |newer.segmentRows|
    && older.bookings.Keys <= newer.bookings.Keys
  }

  lemma MergeAlone(base: Db, view: Db)
    requires Extends(base, view)
    ensures Merged(base, view, base) == view && !Clash(base, view, base)
  {
    assert Overlay(base.reservations, view.reservations, base.reservations) == view.reservations;
    assert Overlay(base.segmentRows, view.segmentRows, base.segmentRows) == view.segmentRows;
    assert MergedBookings(base.bookings, view.bookings, base.bookings) == view.bookings;
  }

  predicate BothChanged<T(==)>(base: T, view: T, current: T) { view != base && current != base }

  /** Both the session and somebody else changed the same row, or inserted the same booking: PostgreSQL refuses the
      later one. */
  predicate Clash(base: Db, view: Db, current: Db)
    requires Extends(base, view) && Extends(base, current)
  {
    || (exists i :: 0 <= i < |base.reservations|
         && BothChanged(base.reservations[i], view.reservations[i], current.reservations[i]))
    || (exists i :: 0 <= i < |base.segmentRows|
         && BothChanged(base.segmentRows[i], view.segmentRows[i], current.segmentRows[i]))
    || (exists b :: b in view.bookings && b in current.bookings
          && (b in base.bookings ==> BothChanged(base.bookings[b], view.bookings[b], current.bookings[b])))
  }

  /** Without a clash nobody's update is lost: a row that the session changed ends as the session left it, a row that
      somebody else changed as they left it. */
  lemma MergeLosesNothing(base: Db, view: Db, current: Db, i: nat)
    requires Extends(base, view) && Extends(base, current) && !Clash(base, view, current) && i < |base.reservations|
    ensures var row := Merged(base, view, current).reservations[i];
            && (view.reservations[i] != base.reservations[i] ==> row == view.reservations[i])
            && (current.reservations[i] != base.reservations[i] ==> row == current.reservations[i])
  {}

  /** A session that only inserted, one booking and some rows, adds them after everything committed meanwhile. */
  lemma MergeOfInserts(base: Db, view: Db, current: Db, b: Id, booking: Booking, rows: seq<Reservation>,
                       publicly: seq<Reservation>)
    requires Extends(base, view) && Extends(base, current) && b !in current.bookings
    requires view == Db(base.bookings[b := booking], base.reservations + rows, base.segmentRows + publicly)
    ensures !Clash(base, view, current)
    ensures Merged(base, view, current)
         == Db(current.bookings[b := booking], current.reservations + rows, current.segmentRows + publicly)
  {
    assert MergedBookings(base.bookings, view.bookings, current.bookings) == current.bookings[b := booking];
  }

  class Server {
    var db: Db

    constructor (db: Db)
      ensures this.db == db
    {
      this.db := db;
    }
  }

  datatype Load = SegmentNotFound | Load(booked: nat, max: nat, slotStart: int, slotEnd: int)

  /** An AsyncSession: its first statement takes the snapshot, and its own writes show in `view`. */
  class Session {
    const server: Server
    var active: bool
    var base: Db
    var view: Db

    constructor (server: Server)
      ensures this.server == server && !active
    {
      this.server := server;
      active := false;
      base, view := server.db, server.db;
    }

    ghost predicate Valid()
      reads this, server
    {
      active ==> Extends(base, view) && Extends(base, server.db)
    }

    /** The database as the next statement sees it. */
    ghost function Seen(): Db
      reads this, server
    {
      if active then view else server.db
    }

    method Begin()
      requires Valid()
      modifies this
      ensures Valid() && active && view == old(Seen()) && (if old(active) then base == old(base) else base == server.db)
    {
      if !active { active, base, view := true, server.db, server.db; }
    }

    /** False when the database refuses the session's changes, which then are gone. */
    method Commit() returns (ok: bool)
      requires Valid()
      modifies this, server
      ensures Valid() && !active
      ensures ok <==> !(old(active) && Clash(old(base), old(view), old(server.db)))
      ensures server.db == if old(active) && ok then Merged(old(base), old(view), old(server.db)) else old(server.db)
    {
      ok := !(active && Clash(base, view, server.db));
      if active && ok { server.db := Merged(base, view, server.db); }
      active := false;
    }

    method Rollback()
      modifies this
      ensures Valid() && !active
    {
      active := false;
    }

    /** Counts the hour that holds `departure`, in the session's snapshot plus its own writes. */
    method CheckCapacity(maxCapacity: Capacities, schema: Region, segmentId: string, departure: int) returns (r: Load)
      requires Valid()
      modifies this
      ensures Valid() && active && view == old(Seen()) && (if old(active) then base == old(base) else base == server.db)
      ensures r.SegmentNotFound? <==> (schema, segmentId) !in maxCapacity
      ensures r.Load? ==>
        && r.max == maxCapacity[(schema, segmentId)]
        && r.slotStart % HOUR == 0 && r.slotStart <= departure < r.slotEnd == r.slotStart + HOUR
        && r.booked == |Takings(view.reservations, Slot(schema, segmentId, r.slotStart))|
      ensures r.Load? ==> r == Load(Booked(view.reservations, Slot(schema, segmentId, HourOf(departure))),
                                    maxCapacity[(schema, segmentId)],
                                    HourOf(departure), HourOf(departure) + HOUR)
    {
      Begin();
      if (schema, segmentId) !in maxCapacity { return SegmentNotFound; }
      var slotStart := HourOf(departure);
      var booked := Booked(view.reservations, Slot(schema, segmentId, slotStart));
      BookedCounts(view.reservations, Slot(schema, segmentId, slotStart));
      r := Load(booked, maxCapacity[(schema, segmentId)], slotStart, slotStart + HOUR);
    }

    /** INSERT; the foreign key refuses a segment that the schema does not hold. */
    method ReserveSegment(maxCapacity: Capacities, b: Id, slot: Slot, status: Status) returns (ok: bool)
      requires Valid()
      modifies this
      ensures Valid() && active && (if old(active) then base == old(base) else base == server.db)
      ensures ok <==> (slot.schema, slot.segmentId) in maxCapacity
      ensures view == if ok then old(Seen()).(reservations
              := old(Seen()).reservations + [Reservation(b, slot, status)]) else old(Seen())
    {
      Begin();
      ok := (slot.schema, slot.segmentId) in maxCapacity;
      if ok { view := view.(reservations := view.reservations + [Reservation(b, slot, status)]); }
    }

    /** UPDATE of every row of the booking in one schema, whatever its status. */
    method ReleaseSegment(schema: Region, b: Id)
      requires Valid()
      modifies this
      ensures Valid() && active && (if old(active) then base == old(base) else base == server.db)
      ensures view == old(Seen()).(reservations := Released(old(Seen()).reservations, {schema}, b))
      ensures forall i :: 0 <= i < |view.reservations| ==>
        var was := old(Seen()).reservations[i];
        view.reservations[i] == if was.booking == b && was.slot.schema == schema then was.(status := Cancelled) else was
    {
      Begin();
      view := view.(reservations := Released(view.reservations, {schema}, b));
    }
  }
}
