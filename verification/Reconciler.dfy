/** The recovery pass over one database, and the cancellation it completes. */
module Reconciler {
  import opened Basics
  import opened RoadGraph
  import opened Database

  const ORPHAN_THRESHOLD: int := 60 * SECOND
  const DANGLING_THRESHOLD: int := 120 * SECOND

  predicate Dead(s: Status) { s == Cancelled || s == Rejected }

  // ---- What the pass looks for ----

  predicate Orphan(db: Db, now: int, b: Id) {
    b in db.bookings && db.bookings[b].status == SagaInProgress && db.bookings[b].createdAt < now - ORPHAN_THRESHOLD
  }

  predicate HasConfirmedRow(rows: seq<Reservation>, b: Id) {
    exists r :: r in rows && r.booking == b && r.status == Confirmed
  }

  /** Case A: confirmed long enough ago, but without a confirmed public segment row. */
  predicate Dangling(db: Db, now: int, b: Id) {
    && b in db.bookings && db.bookings[b].status == Confirmed && db.bookings[b].createdAt < now - DANGLING_THRESHOLD
    && !HasConfirmedRow(db.segmentRows, b)
  }

  predicate HasOpenRow(rows: seq<Reservation>, schema: Region, b: Id) {
    exists r :: r in rows && r.booking == b && r.slot.schema == schema && r.status != Cancelled
  }

  /** Case B: a dead booking still holds rows in a schema. */
  predicate Lingering(db: Db, schema: Region, b: Id) {
    b in db.bookings && Dead(db.bookings[b].status) && HasOpenRow(db.reservations, schema, b)
  }

  function Orphans(db: Db, now: int): set<Id> { set b | b in db.bookings && Orphan(db, now, b) }

  function Danglings(db: Db, now: int): set<Id> { set b | b in db.bookings && Dangling(db, now, b) }

  function Lingerings(db: Db, schema: Region): set<Id> { set b | b in db.bookings && Lingering(db, schema, b) }

  // ---- Its corrections, one commit each ----

  function FixOrphan(db: Db, b: Id): Db
    requires b in db.bookings
  {
    Db(db.bookings[b := db.bookings[b].(status := Rejected)], Released(db.reservations, ALL_SCHEMAS, b),
       Released(db.segmentRows, ALL_SCHEMAS, b))
  }

  function FixDangling(db: Db, b: Id): Db
    requires b in db.bookings
  {
    db.(bookings := db.bookings[b := db.bookings[b].(status := Cancelled)],
        reservations := Released(db.reservations, ALL_SCHEMAS, b))
  }

  function FixLingering(db: Db, schema: Region, b: Id): Db {
    db.(reservations := Released(db.reservations, {schema}, b))
  }

  // ---- Where every pass must end ----

  /** The status a booking ends with, whatever order the corrections come in. */
  function Settled(db: Db, now: int, b: Id): Status {
    if b !in db.bookings then Pending
    else if Orphan(db, now, b) then Rejected
    else if Dangling(db, now, b) then Cancelled
    else db.bookings[b].status
  }

  function Goal(db: Db, now: int): Db {
    Db(map b | b in db.bookings :: db.bookings[b].(status := Settled(db, now, b)),
       CancelWhere(db.reservations, (r: Reservation) => Dead(Settled(db, now, r.booking))),
       CancelWhere(db.segmentRows, (r: Reservation) => Orphan(db, now, r.booking)))
  }

  /** Nothing is left for a pass to find. */
  ghost predicate Clean(db: Db, now: int) {
    Orphans(db, now) == {} && Danglings(db, now) == {} && forall schema: Region :: Lingerings(db, schema) == {}
  }

  lemma ConfirmedRowsElsewhere(rows: seq<Reservation>, b: Id, c: Id)
    requires b != c
    ensures HasConfirmedRow(Released(rows, ALL_SCHEMAS, b), c) <==> HasConfirmedRow(rows, c)
  {
    var after := Released(rows, ALL_SCHEMAS, b);
    if HasConfirmedRow(rows, c) {
      var i :| 0 <= i < |rows| && rows[i].booking == c && rows[i].status == Confirmed;
      assert after[i] == rows[i];
    }
  }

  lemma OpenRowsAfter(rows: seq<Reservation>, schemas: set<Region>, b: Id, schema: Region, c: Id)
    ensures HasOpenRow(Released(rows, schemas, b), schema, c) <==>
          HasOpenRow(rows, schema, c) && !(c == b && schema in schemas)
  {
    var after := Released(rows, schemas, b);
    if HasOpenRow(rows, schema, c) && !(c == b && schema in schemas) {
      var i :| 0 <= i < |rows| && rows[i].booking == c && rows[i].slot.schema == schema && rows[i].status != Cancelled;
      assert after[i] == rows[i];
    }
  }

  /** Cancelling rows of a booking early is absorbed by cancelling them in the end. */
  lemma Absorbed(rows: seq<Reservation>, schemas: set<Region>, b: Id, early: Reservation -> bool,
                 late: Reservation -> bool)
    requires forall r: Reservation :: r.booking != b ==> early(r) == late(r) == late(r.(status := Cancelled))
    requires forall r: Reservation :: r.booking == b ==>
          early(r) && (late(r.(status := Cancelled)) == late(r)) && (late(r) || r.slot.schema in schemas)
    ensures CancelWhere(Released(rows, schemas, b), late) == CancelWhere(rows, early)
  {}

  lemma SettledAfterOrphan(db: Db, now: int, b: Id)
    requires Orphan(db, now, b)
    ensures forall c :: Settled(FixOrphan(db, b), now, c) == Settled(db, now, c)
    ensures Orphans(FixOrphan(db, b), now) == Orphans(db, now) - {b}
    ensures Danglings(FixOrphan(db, b), now) == Danglings(db, now)
  {
    forall c | c != b
      ensures HasConfirmedRow(Released(db.segmentRows, ALL_SCHEMAS, b), c) <==> HasConfirmedRow(db.segmentRows, c)
    {
      ConfirmedRowsElsewhere(db.segmentRows, b, c);
    }
  }

  lemma LingeringsAfterOrphan(db: Db, now: int, b: Id, schema: Region)
    requires Orphan(db, now, b)
    ensures Lingerings(FixOrphan(db, b), schema) == Lingerings(db, schema)
  {
    AllSchemas(schema);
    forall c
      ensures Lingering(FixOrphan(db, b), schema, c) <==> Lingering(db, schema, c)
    {
      OpenRowsAfter(db.reservations, ALL_SCHEMAS, b, schema, c);
    }
  }

  lemma OrphanFixed(db: Db, now: int, b: Id)
    requires Orphan(db, now, b)
    ensures Goal(FixOrphan(db, b), now) == Goal(db, now)
  {
    var db' := FixOrphan(db, b);
    SettledAfterOrphan(db, now, b);
    assert Goal(db', now).bookings == Goal(db, now).bookings;
    forall r: Reservation ensures r.slot.schema in ALL_SCHEMAS { AllSchemas(r.slot.schema); }
    Absorbed(db.reservations, ALL_SCHEMAS, b, (r: Reservation) => Dead(Settled(db, now, r.booking)),
             (r: Reservation) => Dead(Settled(db', now, r.booking)));
    Absorbed(db.segmentRows, ALL_SCHEMAS, b, (r: Reservation) => Orphan(db, now, r.booking),
             (r: Reservation) => Orphan(db', now, r.booking));
  }

  lemma SettledAfterDangling(db: Db, now: int, b: Id)
    requires Dangling(db, now, b)
    ensures forall c :: Settled(FixDangling(db, b), now, c) == Settled(db, now, c)
    ensures Orphans(FixDangling(db, b), now) == Orphans(db, now)
    ensures Danglings(FixDangling(db, b), now) == Danglings(db, now) - {b}
  {}

  lemma LingeringsAfterDangling(db: Db, now: int, b: Id, schema: Region)
    requires Dangling(db, now, b)
    ensures Lingerings(FixDangling(db, b), schema) == Lingerings(db, schema)
  {
    AllSchemas(schema);
    forall c
      ensures Lingering(FixDangling(db, b), schema, c) <==> Lingering(db, schema, c)
    {
      OpenRowsAfter(db.reservations, ALL_SCHEMAS, b, schema, c);
    }
  }

  lemma DanglingFixed(db: Db, now: int, b: Id)
    requires Dangling(db, now, b)
    ensures Goal(FixDangling(db, b), now) == Goal(db, now)
  {
    var db' := FixDangling(db, b);
    SettledAfterDangling(db, now, b);
    assert Goal(db', now).bookings == Goal(db, now).bookings;
    Absorbed(db.reservations, ALL_SCHEMAS, b, (r: Reservation) => Dead(Settled(db, now, r.booking)),
             (r: Reservation) => Dead(Settled(db', now, r.booking)));
    assert Goal(db', now).segmentRows == Goal(db, now).segmentRows;
  }

  lemma LingeringFixed(db: Db, now: int, schema: Region, b: Id)
    requires b in db.bookings && Dead(db.bookings[b].status)
    ensures Goal(FixLingering(db, schema, b), now) == Goal(db, now)
    ensures Orphans(FixLingering(db, schema, b), now) == Orphans(db, now)
    ensures Danglings(FixLingering(db, schema, b), now) == Danglings(db, now)
  {
    var db' := FixLingering(db, schema, b);
    Absorbed(db.reservations, {schema}, b, (r: Reservation) => Dead(Settled(db, now, r.booking)),
             (r: Reservation) => Dead(Settled(db', now, r.booking)));
    assert Goal(db', now).segmentRows == Goal(db, now).segmentRows;
  }

  lemma LingeringsAfter(db: Db, schema: Region, b: Id, other: Region)
    requires Lingering(db, schema, b)
    ensures Lingerings(FixLingering(db, schema, b), other) == if other == schema then Lingerings(db, other) - {b}
            else Lingerings(db, other)
  {
    forall c
      ensures Lingering(FixLingering(db, schema, b), other, c) <==>
            Lingering(db, other, c) && !(c == b && other == schema)
    {
      OpenRowsAfter(db.reservations, {schema}, b, other, c);
    }
  }

  // ---- Between the start of a pass and its end ----

  /** Every row and every booking is as in `db`, or already as it must be in the end. */
  ghost predicate Partway(db: Db, db': Db, now: int) {
    && db'.bookings.Keys == db.bookings.Keys
    && |db'.reservations| == |db.reservations| && |db'.segmentRows| == |db.segmentRows|
    && (forall b :: b in db.bookings ==>
            db'.bookings[b] == db.bookings[b] || db'.bookings[b] == Goal(db, now).bookings[b])
    && (forall i :: 0 <= i < |db.reservations| ==>
          db'.reservations[i] == db.reservations[i] || db'.reservations[i] == Goal(db, now).reservations[i])
    && (forall i :: 0 <= i < |db.segmentRows| ==>
          db'.segmentRows[i] == db.segmentRows[i] || db'.segmentRows[i] == Goal(db, now).segmentRows[i])
  }

  lemma StaysPartway(db: Db, db': Db, db'': Db, now: int)
    requires Partway(db, db', now) && Partway(db', db'', now) && Goal(db', now) == Goal(db, now)
    ensures Partway(db, db'', now)
  {}

  lemma OrphanIsPartway(db: Db, now: int, b: Id)
    requires Orphan(db, now, b)
    ensures Partway(db, FixOrphan(db, b), now)
  {}

  lemma DanglingIsPartway(db: Db, now: int, b: Id)
    requires Dangling(db, now, b)
    ensures Partway(db, FixDangling(db, b), now)
  {}

  lemma LingeringIsPartway(db: Db, now: int, schema: Region, b: Id)
    requires b in db.bookings && Dead(db.bookings[b].status)
    ensures Partway(db, FixLingering(db, schema, b), now)
  {}

  // ---- The pass ----

  /** A pass that finds nothing and the goal reached are the same thing. */
  lemma CleanIffAtGoal(db: Db, now: int)
    ensures Clean(db, now) <==> Goal(db, now) == db
  {
    if Clean(db, now) {
      forall b | b in db.bookings
        ensures Settled(db, now, b) == db.bookings[b].status
      {
        assert b !in Orphans(db, now) && b !in Danglings(db, now);
      }
      forall i | 0 <= i < |db.reservations|
        ensures Goal(db, now).reservations[i] == db.reservations[i]
      {
        var r := db.reservations[i];
        assert r.booking !in Lingerings(db, r.slot.schema);
      }
      forall i | 0 <= i < |db.segmentRows|
        ensures Goal(db, now).segmentRows[i] == db.segmentRows[i]
      {
        assert db.segmentRows[i].booking !in Orphans(db, now);
      }
      assert Goal(db, now).bookings == db.bookings;
    }
    if Goal(db, now) == db {
      forall b | b in db.bookings
        ensures !Orphan(db, now, b) && !Dangling(db, now, b)
      {
        assert Goal(db, now).bookings[b].status == Settled(db, now, b);
      }
      forall schema: Region, b | b in db.bookings
        ensures !Lingering(db, schema, b)
      {}
    }
  }

  /** Commits left before the process dies; a pass that is not interrupted has enough of them. */
  method ReconcileOrphanedSagas(server: Server, now: int, commits: nat) returns (reconciled: nat, interrupted: bool)
    modifies server
    ensures Goal(server.db, now) == Goal(old(server.db), now) && Partway(old(server.db), server.db, now)
    ensures reconciled <= commits && (interrupted <==> commits < |Orphans(old(server.db), now)|)
    ensures !interrupted ==> Orphans(server.db, now) == {} && reconciled == |Orphans(old(server.db), now)|
    ensures Danglings(server.db, now) == Danglings(old(server.db), now)
    ensures forall schema: Region :: Lingerings(server.db, schema) == Lingerings(old(server.db), schema)
  {
    var orphans := Orphans(server.db, now);
    reconciled := 0;
    while orphans != {}
      invariant Goal(server.db, now) == Goal(old(server.db), now) && Partway(old(server.db), server.db, now)
      invariant orphans == Orphans(server.db, now) && reconciled + |orphans| == |Orphans(old(server.db), now)|
      invariant reconciled <= commits
      invariant Danglings(server.db, now) == Danglings(old(server.db), now)
      invariant forall schema: Region :: Lingerings(server.db, schema) == Lingerings(old(server.db), schema)
      decreases orphans
    {
      if reconciled == commits { return reconciled, true; }
      var b :| b in orphans;
      OrphanFixed(server.db, now, b);
      OrphanIsPartway(server.db, now, b);
      StaysPartway(old(server.db), server.db, FixOrphan(server.db, b), now);
      SettledAfterOrphan(server.db, now, b);
      forall schema: Region { LingeringsAfterOrphan(server.db, now, b, schema); }
      var work := server.db;
      work := work.(reservations := Released(work.reservations, ALL_SCHEMAS, b));
      work := work.(segmentRows := Released(work.segmentRows, ALL_SCHEMAS, b));
      work := work.(bookings := work.bookings[b := work.bookings[b].(status := Rejected)]);
      server.db := work;
      orphans, reconciled := orphans - {b}, reconciled + 1;
    }
    interrupted := false;
  }

  method CancelDanglings(server: Server, now: int, commits: nat) returns (corrections: nat, interrupted: bool)
    modifies server
    ensures Goal(server.db, now) == Goal(old(server.db), now) && Partway(old(server.db), server.db, now)
    ensures corrections <= commits && (interrupted <==> commits < |Danglings(old(server.db), now)|)
    ensures !interrupted ==> Danglings(server.db, now) == {} && corrections == |Danglings(old(server.db), now)|
    ensures Orphans(server.db, now) == Orphans(old(server.db), now)
    ensures forall schema: Region :: Lingerings(server.db, schema) == Lingerings(old(server.db), schema)
  {
    var danglings := Danglings(server.db, now);
    corrections := 0;
    while danglings != {}
      invariant Goal(server.db, now) == Goal(old(server.db), now) && Partway(old(server.db), server.db, now)
      invariant danglings == Danglings(server.db, now) && corrections + |danglings| == |Danglings(old(server.db), now)|
      invariant corrections <= commits
      invariant Orphans(server.db, now) == Orphans(old(server.db), now)
      invariant forall schema: Region :: Lingerings(server.db, schema) == Lingerings(old(server.db), schema)
      decreases danglings
    {
      if corrections == commits { return corrections, true; }
      var b :| b in danglings;
      DanglingFixed(server.db, now, b);
      DanglingIsPartway(server.db, now, b);
      StaysPartway(old(server.db), server.db, FixDangling(server.db, b), now);
      SettledAfterDangling(server.db, now, b);
      forall schema: Region { LingeringsAfterDangling(server.db, now, b, schema); }
      var work := server.db;
      work := work.(reservations := Released(work.reservations, ALL_SCHEMAS, b));
      work := work.(bookings := work.bookings[b := work.bookings[b].(status := Cancelled)]);
      server.db := work;
      danglings, corrections := danglings - {b}, corrections + 1;
    }
    interrupted := false;
  }

  method FreeLingering(server: Server, now: int, schema: Region, commits: nat)
      returns (corrections: nat, interrupted: bool)
    modifies server
    ensures Goal(server.db, now) == Goal(old(server.db), now) && Partway(old(server.db), server.db, now)
    ensures corrections <= commits && (interrupted <==> commits < |Lingerings(old(server.db), schema)|)
    ensures !interrupted ==> Lingerings(server.db, schema) == {} && corrections == |Lingerings(old(server.db), schema)|
    ensures Orphans(server.db, now) == Orphans(old(server.db), now)
            && Danglings(server.db, now) == Danglings(old(server.db), now)
    ensures forall other: Region ::
          other != schema ==> Lingerings(server.db, other) == Lingerings(old(server.db), other)
  {
    var lingering := Lingerings(server.db, schema);
    corrections := 0;
    while lingering != {}
      invariant Goal(server.db, now) == Goal(old(server.db), now) && Partway(old(server.db), server.db, now)
      invariant lingering == Lingerings(server.db, schema)
                && corrections + |lingering| == |Lingerings(old(server.db), schema)|
      invariant corrections <= commits
      invariant Orphans(server.db, now) == Orphans(old(server.db), now)
                && Danglings(server.db, now) == Danglings(old(server.db), now)
      invariant forall other: Region ::
            other != schema ==> Lingerings(server.db, other) == Lingerings(old(server.db), other)
      decreases lingering
    {
      if corrections == commits { return corrections, true; }
      var b :| b in lingering;
      LingeringFixed(server.db, now, schema, b);
      LingeringIsPartway(server.db, now, schema, b);
      StaysPartway(old(server.db), server.db, FixLingering(server.db, schema, b), now);
      forall other: Region { LingeringsAfter(server.db, schema, b, other); }
      server.db := server.db.(reservations := Released(server.db.reservations, {schema}, b));
      lingering, corrections := lingering - {b}, corrections + 1;
    }
    interrupted := false;
  }

  /** How many corrections are to be made in the first `k` schemas. */
  function LingeringWork(db: Db, k: nat): nat
    requires k <= |SCHEMAS|
  {
    if k == 0 then 0 else LingeringWork(db, k - 1) + |Lingerings(db, SCHEMAS[k - 1])|
  }

  /** How many corrections a full pass has to make. */
  function Work(db: Db, now: int): nat {
    |Orphans(db, now)| + |Danglings(db, now)| + LingeringWork(db, |SCHEMAS|)
  }

  lemma {:induction false} SameLingeringWork(db: Db, db': Db, k: nat)
    requires k <= |SCHEMAS| && forall schema: Region :: Lingerings(db', schema) == Lingerings(db, schema)
    ensures LingeringWork(db', k) == LingeringWork(db, k)
  {
    if k > 0 { SameLingeringWork(db, db', k - 1); }
  }

  lemma {:induction false} LingeringWorkGrows(db: Db, k: nat, n: nat)
    requires k <= n <= |SCHEMAS|
    ensures LingeringWork(db, k) <= LingeringWork(db, n)
  {
    if k < n { LingeringWorkGrows(db, k, n - 1); }
  }

  /** The first `k` schemas are done, the others as they were. */
  ghost predicate FreedUpTo(db: Db, db': Db, k: nat)
    requires k <= |SCHEMAS|
  {
    forall l :: 0 <= l < |SCHEMAS| ==> Lingerings(db', SCHEMAS[l]) == if l < k then {} else Lingerings(db, SCHEMAS[l])
  }

  lemma FreesOneMore(db: Db, db': Db, db'': Db, k: nat)
    requires k < |SCHEMAS| && FreedUpTo(db, db', k) && Lingerings(db'', SCHEMAS[k]) == {}
    requires forall schema: Region :: schema != SCHEMAS[k] ==> Lingerings(db'', schema) == Lingerings(db', schema)
    ensures FreedUpTo(db, db'', k + 1)
  {}

  lemma AllFreed(db: Db, db': Db)
    requires FreedUpTo(db, db', |SCHEMAS|)
    ensures forall schema: Region :: Lingerings(db', schema) == {}
  {
    forall schema: Region
      ensures Lingerings(db', schema) == {}
    {
      var l := if schema == Ireland then 0 else if schema == Uk then 1 else 2;
      assert SCHEMAS[l] == schema;
    }
  }

  /** Case B, schema by schema. */
  method FreeAllLingering(server: Server, now: int, commits: nat) returns (corrections: nat, interrupted: bool)
    modifies server
    ensures Goal(server.db, now) == Goal(old(server.db), now) && Partway(old(server.db), server.db, now)
    ensures interrupted <==> commits < LingeringWork(old(server.db), |SCHEMAS|)
    ensures !interrupted ==> corrections == LingeringWork(old(server.db), |SCHEMAS|)
    ensures !interrupted ==> forall schema: Region :: Lingerings(server.db, schema) == {}
    ensures Orphans(server.db, now) == Orphans(old(server.db), now)
            && Danglings(server.db, now) == Danglings(old(server.db), now)
  {
    corrections, interrupted := 0, false;
    for k := 0 to |SCHEMAS|
      invariant Goal(server.db, now) == Goal(old(server.db), now) && Partway(old(server.db), server.db, now)
      invariant Orphans(server.db, now) == Orphans(old(server.db), now)
                && Danglings(server.db, now) == Danglings(old(server.db), now)
      invariant FreedUpTo(old(server.db), server.db, k)
      invariant !interrupted && corrections == LingeringWork(old(server.db), k) <= commits
    {
      ghost var before := server.db;
      var n;
      n, interrupted := FreeLingering(server, now, SCHEMAS[k], commits - corrections);
      corrections := corrections + n;
      StaysPartway(old(server.db), before, server.db, now);
      if !interrupted { FreesOneMore(old(server.db), before, server.db, k); }
      LingeringWorkGrows(old(server.db), k + 1, |SCHEMAS|);
      if interrupted { return; }
    }
    AllFreed(old(server.db), server.db);
  }

  method ReconcilePartitionInconsistencies(server: Server, now: int, commits: nat)
      returns (corrections: nat, interrupted: bool)
    modifies server
    ensures Goal(server.db, now) == Goal(old(server.db), now) && Partway(old(server.db), server.db, now)
    ensures var work := |Danglings(old(server.db), now)| + LingeringWork(old(server.db), |SCHEMAS|);
            (interrupted <==> commits < work) && (!interrupted ==> corrections == work)
    ensures Orphans(server.db, now) == Orphans(old(server.db), now)
    ensures !interrupted ==>
          Danglings(server.db, now) == {} && forall schema: Region :: Lingerings(server.db, schema) == {}
  {
    corrections, interrupted := CancelDanglings(server, now, commits);
    if interrupted { return; }
    ghost var before := server.db;
    SameLingeringWork(old(server.db), before, |SCHEMAS|);
    var n;
    n, interrupted := FreeAllLingering(server, now, commits - corrections);
    corrections := corrections + n;
    StaysPartway(old(server.db), before, server.db, now);
  }

  /** One pass, possibly cut short by a crash after `commits` commits. Wherever it stops, the goal stays the same;
      uninterrupted, it is reached. */
  method RunReconciliationOnce(server: Server, now: int, commits: nat)
      returns (orphans: nat, partitions: nat, interrupted: bool)
    modifies server
    ensures Goal(server.db, now) == Goal(old(server.db), now) && Partway(old(server.db), server.db, now)
    ensures interrupted <==> commits < Work(old(server.db), now)
    ensures !interrupted ==> server.db == Goal(old(server.db), now) && Clean(server.db, now)
    ensures !interrupted ==>
          orphans == |Orphans(old(server.db), now)| && orphans + partitions == Work(old(server.db), now)
  {
    partitions := 0;
    orphans, interrupted := ReconcileOrphanedSagas(server, now, commits);
    if interrupted { return; }
    ghost var before := server.db;
    SameLingeringWork(old(server.db), before, |SCHEMAS|);
    partitions, interrupted := ReconcilePartitionInconsistencies(server, now, commits - orphans);
    StaysPartway(old(server.db), before, server.db, now);
    if !interrupted { CleanIffAtGoal(server.db, now); }
  }

  lemma NothingToDo(db: Db, now: int)
    requires Clean(db, now)
    ensures Work(db, now) == 0
  {
    assert LingeringWork(db, 1) == 0 && LingeringWork(db, 2) == 0;
  }

  /** Stopping at any commit and running again ends where one uninterrupted pass ends, and a further pass
      finds nothing. */
  method CrashAndRunAgain(server: Server, now: int, commits: nat) returns (third: nat)
    modifies server
    ensures server.db == Goal(old(server.db), now) && third == 0
  {
    var o, p, i := RunReconciliationOnce(server, now, commits);
    o, p, i := RunReconciliationOnce(server, now, Work(server.db, now));
    ghost var settled := server.db;
    o, p, i := RunReconciliationOnce(server, now, Work(server.db, now));
    CleanIffAtGoal(settled, now);
    NothingToDo(settled, now);
    third := o + p;
  }

  // ---- What a pass achieves and what it leaves alone ----

  lemma GoalIsStable(db: Db, now: int)
    ensures Goal(Goal(db, now), now) == Goal(db, now) && Work(Goal(db, now), now) == 0
  {
    var g := Goal(db, now);
    forall b
      ensures Settled(g, now, b) == Settled(db, now, b)
    {
      if b in db.bookings && Settled(db, now, b) == Confirmed && HasConfirmedRow(db.segmentRows, b) {
        var i :| 0 <= i < |db.segmentRows| && db.segmentRows[i].booking == b && db.segmentRows[i].status == Confirmed;
        assert g.segmentRows[i] == db.segmentRows[i];
      }
    }
    assert Goal(g, now).bookings == g.bookings;
    assert Goal(g, now).reservations == g.reservations;
    assert Goal(g, now).segmentRows == g.segmentRows;
    CleanIffAtGoal(g, now);
    NothingToDo(g, now);
  }

  /** Whatever a crash left behind: once every unfinished saga is past the threshold, one pass leaves no unfinished saga
      and no open reservation of a dead booking. */
  lemma OnePassRecovers(db: Db, now: int)
    requires forall b ::
          b in db.bookings && db.bookings[b].status == SagaInProgress
          ==> db.bookings[b].createdAt < now - ORPHAN_THRESHOLD
    ensures var g := Goal(db, now);
            && (forall b :: b in g.bookings ==> g.bookings[b].status != SagaInProgress)
            && (forall r :: r in g.reservations && r.booking in g.bookings && Dead(g.bookings[r.booking].status)
                 ==> r.status == Cancelled)
  {
    var g := Goal(db, now);
    forall i | 0 <= i < |g.reservations| && g.reservations[i].booking in g.bookings
        && Dead(g.bookings[g.reservations[i].booking].status)
      ensures g.reservations[i].status == Cancelled
    {
      assert g.reservations[i].booking == db.reservations[i].booking;
    }
  }

  /** What a full pass decides about one booking, spelled out. */
  ghost predicate Verdict(db: Db, db': Db, now: int, b: Id)
    requires b in db.bookings && b in db'.bookings
  {
    var was, ends := db.bookings[b], db'.bookings[b];
    var backed := exists q :: q in db.segmentRows && q.booking == b && q.status == Confirmed;
    && ends.driver == was.driver && ends.createdAt == was.createdAt
    && (was.status == SagaInProgress && was.createdAt < now - 60 * SECOND ==> ends.status == Rejected)
    && (was.status == SagaInProgress && was.createdAt >= now - 60 * SECOND ==> ends.status == SagaInProgress)
    && (was.status == Confirmed && was.createdAt < now - 120 * SECOND && !backed ==> ends.status == Cancelled)
    && (was.status == Confirmed && (was.createdAt >= now - 120 * SECOND || backed) ==> ends.status == Confirmed)
    && (was.status in {Pending, Rejected, Cancelled} ==> ends.status == was.status)
  }

  /** And about one regional row: it is cancelled exactly if its booking is here, and rejected or cancelled by then. */
  ghost predicate RowVerdict(r: Reservation, r': Reservation, bookings': map<Id, Booking>) {
    && r'.booking == r.booking && r'.slot == r.slot
    && r'.status == if r.booking in bookings'
         && bookings'[r.booking].status in {Rejected, Cancelled} then Cancelled else r.status
  }

  /** The goal in full: every booking, every regional row, every public row. */
  lemma GoalSpelledOut(db: Db, now: int)
    ensures var g := Goal(db, now);
            && g.bookings.Keys == db.bookings.Keys
            && |g.reservations| == |db.reservations| && |g.segmentRows| == |db.segmentRows|
            && (forall b :: b in db.bookings ==> Verdict(db, g, now, b))
            && (forall i :: 0 <= i < |db.reservations|
                 ==> RowVerdict(db.reservations[i], g.reservations[i], g.bookings))
            && (forall i :: 0 <= i < |db.segmentRows| ==>
                  var b := db.segmentRows[i].booking;
                  g.segmentRows[i] == if b in db.bookings && db.bookings[b].status == SagaInProgress
                                         && g.bookings[b].status == Rejected
                                      then db.segmentRows[i].(status := Cancelled) else db.segmentRows[i])
  {
    forall b | b in db.bookings
      ensures Verdict(db, Goal(db, now), now, b)
    {
      assert HasConfirmedRow(db.segmentRows, b) <==>
              exists q :: q in db.segmentRows && q.booking == b && q.status == Confirmed;
    }
  }

  /** A booking the pass has no business with: confirmed and young or backed by a public row, a young saga, or not in
      this database at all. */
  predicate Untouchable(db: Db, now: int, b: Id) {
    || b !in db.bookings
    || (db.bookings[b].status == Confirmed && HasConfirmedRow(db.segmentRows, b))
    || (db.bookings[b].status == Confirmed && now - 120 * SECOND <= db.bookings[b].createdAt)
    || (db.bookings[b].status == SagaInProgress && now - 60 * SECOND <= db.bookings[b].createdAt)
  }

  /** At no moment of a pass has a row appeared or come back to life, nor has it touched the rows and the status of an
      untouchable booking. In particular reservations made for the peer's bookings, which have no booking row here, are
      never reclaimed. */
  lemma PassFrame(db: Db, db': Db, now: int, i: nat)
    requires Partway(db, db', now) && i < |db.reservations|
    ensures |db'.reservations| == |db.reservations| && db'.bookings.Keys == db.bookings.Keys
    ensures db'.reservations[i] in {db.reservations[i], db.reservations[i].(status := Cancelled)}
    ensures var b := db.reservations[i].booking;
            Untouchable(db, now, b) ==>
              db'.reservations[i] == db.reservations[i] && (b in db.bookings ==> db'.bookings[b] == db.bookings[b])
  {}

  // ---- Cancelling, and what the next pass frees ----

  datatype CancelResult = BookingNotFound | NotTheDriver | CancelOk

  function WithCancelled(db: Db, b: Id): Db
    requires b in db.bookings
  {
    db.(bookings := db.bookings[b := db.bookings[b].(status := Cancelled)],
        segmentRows := Released(db.segmentRows, ALL_SCHEMAS, b))
  }

  /** What a cancellation changes: the status of one booking, and the status of its public rows. */
  ghost predicate CancelsOnly(db: Db, db': Db, b: Id) {
    && db'.bookings.Keys == db.bookings.Keys && b in db.bookings
    && db'.bookings[b] == Booking(db.bookings[b].driver, Cancelled, db.bookings[b].createdAt)
    && (forall c :: c in db.bookings && c != b ==> db'.bookings[c] == db.bookings[c])
    && db'.reservations == db.reservations && |db'.segmentRows| == |db.segmentRows|
    && forall i :: 0 <= i < |db.segmentRows| ==>
         db'.segmentRows[i].booking == db.segmentRows[i].booking && db'.segmentRows[i].slot == db.segmentRows[i].slot
         && db'.segmentRows[i].status == if db.segmentRows[i].booking == b then Cancelled else db.segmentRows[i].status
  }

  lemma WithCancelledOnly(db: Db, b: Id)
    requires b in db.bookings
    ensures CancelsOnly(db, WithCancelled(db, b), b) && !HasConfirmedRow(WithCancelled(db, b).segmentRows, b)
  {
    forall i | 0 <= i < |db.segmentRows| { AllSchemas(db.segmentRows[i].slot.schema); }
  }

  method CancelBooking(server: Server, b: Id, driver: Id) returns (r: CancelResult)
    modifies server
    ensures r == BookingNotFound <==> b !in old(server.db).bookings
    ensures r == NotTheDriver <==> b in old(server.db).bookings && old(server.db).bookings[b].driver != driver
    ensures r != CancelOk || old(server.db).bookings[b].status == Cancelled ==> server.db == old(server.db)
    ensures r == CancelOk && old(server.db).bookings[b].status != Cancelled ==>
      server.db == WithCancelled(old(server.db), b) && CancelsOnly(old(server.db), server.db, b)
    ensures r == CancelOk && old(server.db).bookings[b].status != Cancelled ==>
      forall q :: q in server.db.segmentRows && q.booking == b ==> q.status == Cancelled
  {
    if b !in server.db.bookings { return BookingNotFound; }
    var booking := server.db.bookings[b];
    if booking.driver != driver { return NotTheDriver; }
    if booking.status == Cancelled { return CancelOk; }
    WithCancelledOnly(server.db, b);
    var work := server.db;
    work := work.(bookings := work.bookings[b := booking.(status := Cancelled)]);
    work := work.(segmentRows := Released(work.segmentRows, ALL_SCHEMAS, b));
    server.db := work;
    r := CancelOk;
  }

  lemma {:induction false} ReleaseFreesItsOwn(rows: seq<Reservation>, b: Id, slot: Slot)
    ensures Booked(Released(rows, ALL_SCHEMAS, b), slot) == Booked(rows, slot) - Holding(rows, b, slot)
  {
    if rows != [] {
      var init, last := rows[..|rows| - 1], rows[|rows| - 1];
      ReleaseFreesItsOwn(init, b, slot);
      assert Released(rows, ALL_SCHEMAS, b)[..|rows| - 1] == Released(init, ALL_SCHEMAS, b);
      AllSchemas(last.slot.schema);
    }
  }

  /** From a reconciled database, a cancellation alone frees nothing; with the next pass it frees exactly the booking's
      active rows, slot by slot, and leaves every other booking and row alone. */
  lemma CancelThenPassFreesExactlyTheBooking(db: Db, now: int, b: Id, slot: Slot)
    requires Clean(db, now) && b in db.bookings
    ensures Booked(WithCancelled(db, b).reservations, slot) == Booked(db.reservations, slot)
    ensures var after := Goal(WithCancelled(db, b), now);
            && Booked(after.reservations, slot) == Booked(db.reservations, slot) - Holding(db.reservations, b, slot)
            && after == FixDangling(WithCancelled(db, b), b)
  {
    PassAfterCancel(db, now, b);
    ReleaseFreesItsOwn(db.reservations, b, slot);
  }

  lemma PassAfterCancel(db: Db, now: int, b: Id)
    requires Clean(db, now) && b in db.bookings
    ensures Goal(WithCancelled(db, b), now) == FixDangling(WithCancelled(db, b), b)
  {
    var c := WithCancelled(db, b);
    CleanIffAtGoal(db, now);
    forall d | d != b
      ensures Settled(c, now, d) == Settled(db, now, d)
    {
      ConfirmedRowsElsewhere(db.segmentRows, b, d);
    }
    assert Goal(c, now).bookings == c.bookings;
    forall i | 0 <= i < |db.reservations|
      ensures Goal(c, now).reservations[i] == Released(db.reservations, ALL_SCHEMAS, b)[i]
    {
      AllSchemas(db.reservations[i].slot.schema);
      assert Goal(db, now).reservations[i] == db.reservations[i];
    }
    forall i | 0 <= i < |db.segmentRows|
      ensures Goal(c, now).segmentRows[i] == c.segmentRows[i]
    {
      assert Goal(db, now).segmentRows[i] == db.segmentRows[i];
    }
    assert Goal(c, now).reservations == Released(db.reservations, ALL_SCHEMAS, b);
    assert Goal(c, now).segmentRows == c.segmentRows;
  }
}
