/** Many sagas on two VMs: saga steps, requests that land late or never, crashes, cancellations and reconciler
    corrections, interleaved in any way. */
module BookingProtocol {
  import opened Basics
  import opened RoadGraph
  import opened Timetable
  import opened Database
  import opened Reconciler
  import opened Saga

  type Vm = v: nat | v < 2

  /** Where a booking was started and what its route asks for. */
  datatype Plan = Plan(home: Vm, segs: seq<RouteSegment>, driver: Id, startedAt: int)

  /** Where the process of a saga stands. `Asking` waits for the peer's reply, `Written` has committed CONFIRMED but not
      returned. */
  datatype Phase =
    | Reserving(peerReserved: bool)
    | Asking(peerReserved: bool)
    | Saved(peerReserved: bool)
    | Published
    | Written
    | Failed(peerReserved: bool, unavailable: bool)
    | Compensated(callPeer: bool)
    | Finishing

  /** The last call of a saga to the peer: in flight, or run there, its row still kept or released again. */
  datatype Call = NoCall | InFlight | Landed(kept: bool)

  datatype Release = NotSent | Sent | Applied

  /** What has happened to the reservations of a booking, whether or not its process still runs: `done` segments were
      reserved, `saved` says that the local ones were committed, `freed` the schemas in which they were cancelled since,
      `down` that a call ended in a RegionUnavailableError. */
  datatype Trace = Trace(done: nat, call: Call, release: Release, saved: bool, freed: set<Region>, down: bool)

  /** A correction that a reconciler selected, to be applied by id later. */
  datatype Fix = OrphanFix | DanglingFix | LingeringFix(schema: Region)

  datatype Pick = Pick(b: Id, v: Vm, fix: Fix)

  /** `plans` and `traces` remember every booking ever started, `sagas` those whose process still runs. */
  datatype RawWorld = World(now: int, dbs: seq<Db>, plans: map<Id, Plan>, sagas: map<Id, Phase>,
                            traces: map<Id, Trace>, picks: set<Pick>)

  type World = w: RawWorld |
    |w.dbs| == 2 && (forall b :: b in w.sagas ==> b in w.plans) && (forall b :: b in w.plans ==> b in w.traces)
    witness World(0, [Db(map[], [], []), Db(map[], [], [])], map[], map[], map[], {})

  datatype Step =
    | Tick(dt: nat)
    | Start(b: Id, plan: Plan)
    | Crash(v: Vm)
    | Select(b: Id, v: Vm, fix: Fix)
    | ReserveHere(b: Id)
    | Ask(b: Id)
    | Land(b: Id)
    | Reply(b: Id)
    | LosePeer(b: Id, unavailable: bool)
    | Refuse(b: Id)
    | Fail(b: Id)
    | Save(b: Id)
    | Publish(b: Id, ok: bool)
    | Confirm(b: Id)
    | Return(b: Id)
    | RejectLate(b: Id)
    | CompensateHere(b: Id, schemas: set<Region>)
    | CompensateThere(b: Id)
    | ReleaseLands(b: Id)
    | Reject(b: Id)
    | Die(b: Id)
    | Cancel(b: Id, v: Vm)
    | Correct(b: Id, v: Vm, fix: Fix)

  /** The regions of VM 0; VM 1 owns the rest. */
  type Owners = set<Region>

  function OwnerOf(owners: Owners, r: Region): Vm { if r in owners then 0 else 1 }

  function Topo(owners: Owners, v: Vm): Topology { Topology(if v == 0 then owners else ALL_SCHEMAS - owners, true) }

  lemma LocalIffOwner(owners: Owners, v: Vm, r: Region)
    ensures IsLocal(Topo(owners, v), r) <==> OwnerOf(owners, r) == v
  {
    AllSchemas(r);
  }

  predicate IsRemote(owners: Owners, p: Plan, i: nat)
    requires i < |p.segs|
  {
    OwnerOf(owners, p.segs[i].region) != p.home
  }

  // ---- What a step does to one database ----

  datatype Edit =
    | Keep
    | Insert(slot: Slot)
    | SaveAll(rows: seq<Reservation>, booking: Booking)
    | Write(booking: Booking)
    | Free(schemas: set<Region>)
    | Unbook
    | Repair(fix: Fix)

  function Found(db: Db, now: int, b: Id, fix: Fix): bool {
    match fix
    case OrphanFix => Orphan(db, now, b)
    case DanglingFix => Dangling(db, now, b)
    case LingeringFix(schema) => Lingering(db, schema, b)
  }

  function Fixed(db: Db, b: Id, fix: Fix): Db
    requires b in db.bookings
  {
    match fix
    case OrphanFix => FixOrphan(db, b)
    case DanglingFix => FixDangling(db, b)
    case LingeringFix(schema) => FixLingering(db, schema, b)
  }

  /** The schemas whose rows a correction cancels. */
  function Scope(fix: Fix): set<Region> { if fix.LingeringFix? then {fix.schema} else ALL_SCHEMAS }

  function Edited(db: Db, b: Id, edit: Edit): Db {
    match edit
    case Keep => db
    case Insert(slot) => db.(reservations := db.reservations + [Row(b, slot)])
    case SaveAll(rows, booking) => WithRows(db, rows).(bookings := db.bookings[b := booking])
    case Write(booking) => db.(bookings := db.bookings[b := booking])
    case Free(schemas) => db.(reservations := Released(db.reservations, schemas, b))
    case Unbook => if b in db.bookings then WithCancelled(db, b) else db
    case Repair(fix) => if b in db.bookings then Fixed(db, b, fix) else db
  }

  // ---- The steps ----

  /** `limit` bounds how long a saga may run; `cancelsRunning` says whether a driver may cancel a booking whose call has
      not returned. */
  datatype Regime = Regime(limit: nat, cancelsRunning: bool)

  /** Sagas end before the reconciler takes them for orphans, and nobody cancels a booking still being made. */
  predicate Prompt(regime: Regime) { regime.limit <= ORPHAN_THRESHOLD && !regime.cancelsRunning }

  predicate Concerns(step: Step) { !step.Tick? && !step.Start? && !step.Crash? && !step.Select? }

  /** When a step that moves one booking on can be taken. */
  predicate Enabled(owners: Owners, regime: Regime, w: World, step: Step)
    requires Concerns(step)
  {
    && step.b in w.plans
    && var p, t := w.plans[step.b], w.traces[step.b];
       match step
       case ReserveHere(b) => b in w.sagas && w.sagas[b].Reserving? && t.done < |p.segs| && !IsRemote(owners, p, t.done)
       case Ask(b) => b in w.sagas && w.sagas[b].Reserving? && t.done < |p.segs| && IsRemote(owners, p, t.done)
       case Land(b) => t.call.InFlight? && t.done < |p.segs|
       case Reply(b) => b in w.sagas && w.sagas[b].Asking? && t.call.Landed?
       case LosePeer(b, _) => b in w.sagas && w.sagas[b].Asking?
       case Refuse(b) => b in w.sagas && w.sagas[b].Asking? && t.call.InFlight?
       case Fail(b) => b in w.sagas && w.sagas[b].Reserving?
       case Save(b) => b in w.sagas && w.sagas[b].Reserving? && t.done == |p.segs|
       case Publish(b, _) => b in w.sagas && w.sagas[b].Saved?
       case Confirm(b) => b in w.sagas && w.sagas[b].Published?
       case Return(b) => b in w.sagas && w.sagas[b].Written?
       case RejectLate(b) => b in w.sagas && (w.sagas[b].Published? || w.sagas[b].Written?)
       case CompensateHere(b, _) => b in w.sagas && w.sagas[b].Failed?
       case CompensateThere(b) => b in w.sagas && w.sagas[b].Compensated?
       case ReleaseLands(b) => t.release.Sent?
       case Reject(b) => b in w.sagas && w.sagas[b].Finishing?
       case Die(b) => b in w.sagas
       case Cancel(b, v) =>
         && b in w.dbs[v].bookings && w.dbs[v].bookings[b].status != Cancelled
         && (b in w.sagas ==> regime.cancelsRunning)
       case Correct(b, v, fix) => Pick(b, v, fix) in w.picks && b in w.dbs[v].bookings
  }

  /** One database is edited, the saga moves on or ends, the trace is kept up to date. */
  datatype Effect = Effect(v: Vm, edit: Edit, saga: Option<Phase>, trace: Trace)

  function BookingOf(p: Plan, status: Status): Booking { Booking(p.driver, status, p.startedAt) }

  function EffectOf(owners: Owners, regime: Regime, w: World, step: Step): Effect
    requires Concerns(step) && Enabled(owners, regime, w, step)
  {
    var b := step.b;
    var p, t := w.plans[b], w.traces[b];
    var saga := if b in w.sagas then Some(w.sagas[b]) else None;
    match step
    case ReserveHere(_) => Effect(p.home, Keep, saga, t.(done := t.done + 1))
    case Ask(_) => Effect(p.home, Keep, Some(Asking(w.sagas[b].peerReserved)), t.(call := InFlight))
    case Land(_) => Effect(1 - p.home, Insert(SlotOf(p.segs[t.done])), saga, t.(call := Landed(true)))
    case Reply(_) => Effect(p.home, Keep, Some(Reserving(true)), t.(done := t.done + 1, call := NoCall))
    case LosePeer(_, unavailable) =>
      Effect(p.home, Keep, Some(Failed(w.sagas[b].peerReserved, unavailable)), t.(down := unavailable))
    case Refuse(_) => Effect(p.home, Keep, Some(Failed(w.sagas[b].peerReserved, false)), t.(call := NoCall))
    case Fail(_) => Effect(p.home, Keep, Some(Failed(w.sagas[b].peerReserved, false)), t)
    case Save(_) =>
      Effect(p.home, SaveAll(Rows(Topo(owners, p.home), b, p.segs, true), BookingOf(p, SagaInProgress)),
             Some(Saved(w.sagas[b].peerReserved)), t.(saved := true))
    case Publish(_, ok) => Effect(p.home, Keep, Some(if ok then Published else Failed(w.sagas[b].peerReserved, false)),
                                  t)
    case Confirm(_) => Effect(p.home, Write(BookingOf(p, Confirmed)), Some(Written), t)
    case Return(_) => Effect(p.home, Keep, None, t)
    case RejectLate(_) => Effect(p.home, Write(BookingOf(p, Rejected)), None, t)
    case CompensateHere(_, schemas) =>
      Effect(p.home, Free(schemas), Some(Compensated(w.sagas[b].peerReserved && !w.sagas[b].unavailable)),
             t.(freed := t.freed + schemas))
    case CompensateThere(_) =>
      Effect(p.home, Keep, Some(Finishing), t.(release := if w.sagas[b].callPeer then Sent else t.release))
    case ReleaseLands(_) =>
      Effect(1 - p.home, Free(ALL_SCHEMAS), saga,
             t.(release := Applied, call := if t.call.Landed? then Landed(false) else t.call))
    case Reject(_) => Effect(p.home, Write(BookingOf(p, Rejected)), None, t)
    case Die(_) => Effect(p.home, Keep, None, t)
    case Cancel(_, v) => Effect(v, Unbook, saga, t)
    case Correct(_, v, fix) => Effect(v, Repair(fix), saga, t.(freed := t.freed + Scope(fix)))
  }

  function Moved(w: World, b: Id, e: Effect): World
    requires b in w.plans
  {
    w.(dbs := w.dbs[e.v := Edited(w.dbs[e.v], b, e.edit)],
       sagas := if e.saga.Some? then w.sagas[b := e.saga.value] else w.sagas - {b},
       traces := w.traces[b := e.trace])
  }

  ghost predicate Next(owners: Owners, regime: Regime, w: World, step: Step, w': World)
  {
    match step
    case Tick(dt) =>
      && (forall b :: b in w.sagas ==> w.now + dt - w.plans[b].startedAt <= regime.limit)
      && w' == w.(now := w.now + dt)
    case Start(b, plan) =>
      && b !in w.plans && plan.startedAt == w.now && SegmentsDiffer(plan.segs) && w' == Started(w, b, plan)
    case Crash(v) =>
      w' == w.(sagas := w.sagas - set b | b in w.sagas && w.plans[b].home == v)
    case Select(b, v, fix) =>
      Found(w.dbs[v], w.now, b, fix) && w' == w.(picks := w.picks + {Pick(b, v, fix)})
    case _ =>
      Enabled(owners, regime, w, step) && w' == Moved(w, step.b, EffectOf(owners, regime, w, step))
  }

  function Started(w: World, b: Id, plan: Plan): World {
    w.(plans := w.plans[b := plan], sagas := w.sagas[b := Reserving(false)],
       traces := w.traces[b := Trace(0, NoCall, NotSent, false, {}, false)])
  }

  function Init(): World { World(0, [Db(map[], [], []), Db(map[], [], [])], map[], map[], map[], {}) }

  ghost predicate StepAt(owners: Owners, regime: Regime, worlds: seq<World>, steps: seq<Step>, i: nat)
    requires |worlds| == |steps| + 1 && i < |steps|
  {
    Next(owners, regime, worlds[i], steps[i], worlds[i + 1])
  }

  ghost predicate IsRun(owners: Owners, regime: Regime, worlds: seq<World>, steps: seq<Step>) {
    && |worlds| == |steps| + 1 && worlds[0] == Init()
    && forall i :: 0 <= i < |steps| ==> StepAt(owners, regime, worlds, steps, i)
  }

  lemma RunGoesOn(owners: Owners, regime: Regime, worlds: seq<World>, steps: seq<Step>, step: Step, w': World)
    requires IsRun(owners, regime, worlds, steps) && Next(owners, regime, worlds[|steps|], step, w')
    ensures IsRun(owners, regime, worlds + [w'], steps + [step])
  {
    forall i | 0 <= i < |steps + [step]|
      ensures StepAt(owners, regime, worlds + [w'], steps + [step], i)
    {
      if i < |steps| { assert StepAt(owners, regime, worlds, steps, i); }
    }
  }

  // ---- Building runs ----

  lemma Takes(owners: Owners, regime: Regime, worlds: seq<World>, steps: seq<Step>, step: Step)
    returns (worlds': seq<World>, steps': seq<Step>)
    requires IsRun(owners, regime, worlds, steps) && Concerns(step) && Enabled(owners, regime, worlds[|steps|], step)
    ensures IsRun(owners, regime, worlds', steps')
    ensures worlds'[|steps'|] == Moved(worlds[|steps|], step.b, EffectOf(owners, regime, worlds[|steps|], step))
  {
    var w' := Moved(worlds[|steps|], step.b, EffectOf(owners, regime, worlds[|steps|], step));
    RunGoesOn(owners, regime, worlds, steps, step, w');
    worlds', steps' := worlds + [w'], steps + [step];
  }

  function Stop(id: string): RouteSegment {
    RouteSegment(id, Ireland, 0, HOUR, 0.0, 5, Point(0.0, 0.0), Point(0.0, 0.0))
  }

  /** One segment, owned by the VM where the booking is made or by the other one. */
  const ONE_STOP: Plan := Plan(0, [Stop("S")], 0, 0)

  lemma Starts(owners: Owners, regime: Regime, plan: Plan) returns (worlds: seq<World>, steps: seq<Step>)
    requires plan.startedAt == 0 && SegmentsDiffer(plan.segs)
    ensures IsRun(owners, regime, worlds, steps) && worlds[|steps|] == Started(Init(), 0, plan)
  {
    RunGoesOn(owners, regime, [Init()], [], Start(0, plan), Started(Init(), 0, plan));
    worlds, steps := [Init(), Started(Init(), 0, plan)], [Start(0, plan)];
  }

  // ---- Every edit is about one booking ----

  function AddedBy(b: Id, edit: Edit): seq<Reservation> {
    match edit
    case Insert(slot) => [Row(b, slot)]
    case SaveAll(rows, _) => rows
    case _ => []
  }

  function ReleasedBy(db: Db, b: Id, edit: Edit): set<Region> {
    match edit
    case Free(schemas) => schemas
    case Repair(fix) => if b in db.bookings then Scope(fix) else {}
    case _ => {}
  }

  lemma ReleasedFromNowhere(rows: seq<Reservation>, b: Id)
    ensures Released(rows, {}, b) == rows
  {}

  /** Every edit cancels regional rows of the booking, then adds some; and the same in public. */
  lemma EditShape(db: Db, b: Id, edit: Edit)
    ensures Edited(db, b, edit).reservations == Released(db.reservations, ReleasedBy(db, b, edit), b) + AddedBy(b, edit)
    ensures Edited(db, b, edit).segmentRows == db.segmentRows + (if edit.SaveAll? then edit.rows else [])
         || Edited(db, b, edit).segmentRows == Released(db.segmentRows, ALL_SCHEMAS, b)
  {
    ReleasedFromNowhere(db.reservations, b);
    assert db.segmentRows + [] == db.segmentRows;
  }

  ghost predicate HasRow(rows: seq<Reservation>, b: Id, slot: Slot) {
    exists r :: r in rows && r.booking == b && r.slot == slot
  }

  /** All other bookings keep their status and their active rows. */
  ghost predicate Elsewhere(db: Db, db': Db, b: Id) {
    forall c :: c != b ==>
      && (c in db.bookings <==> c in db'.bookings) && (c in db.bookings ==> db'.bookings[c] == db.bookings[c])
      && forall slot :: Holding(db'.reservations, c, slot) == Holding(db.reservations, c, slot)
  }

  ghost predicate KeepsRows(db: Db, db': Db) {
    forall c, slot ::
      && (HasRow(db.reservations, c, slot) ==> HasRow(db'.reservations, c, slot))
      && (HasRow(db.segmentRows, c, slot) ==> HasRow(db'.segmentRows, c, slot))
  }

  lemma ReleasedKeepsRow(rows: seq<Reservation>, schemas: set<Region>, b: Id, c: Id, slot: Slot)
    requires HasRow(rows, c, slot)
    ensures HasRow(Released(rows, schemas, b), c, slot)
  {
    var i :| 0 <= i < |rows| && rows[i].booking == c && rows[i].slot == slot;
    assert Released(rows, schemas, b)[i] in Released(rows, schemas, b);
  }

  lemma AddedKeepsRow(rows: seq<Reservation>, more: seq<Reservation>, c: Id, slot: Slot)
    requires HasRow(rows, c, slot)
    ensures HasRow(rows + more, c, slot)
  {
    var r :| r in rows && r.booking == c && r.slot == slot;
    assert r in rows + more;
  }

  ghost predicate AddsOwn(b: Id, edit: Edit) {
    forall r :: r in AddedBy(b, edit) ==> r.booking == b
  }

  lemma EditIsElsewhere(db: Db, b: Id, edit: Edit, c: Id, slot: Slot)
    requires AddsOwn(b, edit) && c != b
    ensures Holding(Edited(db, b, edit).reservations, c, slot) == Holding(db.reservations, c, slot)
  {
    EditShape(db, b, edit);
    HoldingSplits(Released(db.reservations, ReleasedBy(db, b, edit), b), AddedBy(b, edit), c, slot);
    HoldingAfterRelease(db.reservations, ReleasedBy(db, b, edit), b, c, slot);
    UnheardHoldsNothing(AddedBy(b, edit), c, slot);
  }

  lemma EditKeepsRows(db: Db, b: Id, edit: Edit, c: Id, slot: Slot)
    ensures HasRow(db.reservations, c, slot) ==> HasRow(Edited(db, b, edit).reservations, c, slot)
    ensures HasRow(db.segmentRows, c, slot) ==> HasRow(Edited(db, b, edit).segmentRows, c, slot)
  {
    EditShape(db, b, edit);
    if HasRow(db.reservations, c, slot) {
      ReleasedKeepsRow(db.reservations, ReleasedBy(db, b, edit), b, c, slot);
      AddedKeepsRow(Released(db.reservations, ReleasedBy(db, b, edit), b), AddedBy(b, edit), c, slot);
    }
    if HasRow(db.segmentRows, c, slot) {
      ReleasedKeepsRow(db.segmentRows, ALL_SCHEMAS, b, c, slot);
      AddedKeepsRow(db.segmentRows, if edit.SaveAll? then edit.rows else [], c, slot);
    }
  }

  lemma EditIsLocal(db: Db, b: Id, edit: Edit)
    requires AddsOwn(b, edit)
    ensures Elsewhere(db, Edited(db, b, edit), b) && KeepsRows(db, Edited(db, b, edit))
  {
    forall c, slot | c != b { EditIsElsewhere(db, b, edit, c, slot); }
    forall c, slot { EditKeepsRows(db, b, edit, c, slot); }
  }

  lemma EffectAddsOwn(owners: Owners, regime: Regime, w: World, step: Step)
    requires Concerns(step) && Enabled(owners, regime, w, step)
    ensures AddsOwn(step.b, EffectOf(owners, regime, w, step).edit)
  {
    if step.Save? { RowsBelong(Topo(owners, w.plans[step.b].home), step.b, w.plans[step.b].segs, true); }
  }

  /** A step that moves one booking on leaves all others as they were, in both databases, and deletes no row. */
  lemma StepIsLocal(owners: Owners, regime: Regime, w: World, step: Step, w': World, v: Vm)
    requires Next(owners, regime, w, step, w') && Concerns(step)
    ensures Elsewhere(w.dbs[v], w'.dbs[v], step.b) && KeepsRows(w.dbs[v], w'.dbs[v])
  {
    var e := EffectOf(owners, regime, w, step);
    EffectAddsOwn(owners, regime, w, step);
    EditIsLocal(w.dbs[v], step.b, e.edit);
  }

  // ---- Every run: homes and plans ----

  /** Only a booking's home VM has a row for it, and only started bookings have one. */
  ghost predicate HomeOnly(w: World) {
    forall v: Vm, b :: b in w.dbs[v].bookings ==> b in w.plans && w.plans[b].home == v
  }

  ghost predicate Fits(w: World) {
    forall b :: b in w.plans ==> SegmentsDiffer(w.plans[b].segs)
  }

  ghost predicate RowsPlanned(w: World) {
    forall v: Vm, r :: r in w.dbs[v].reservations || r in w.dbs[v].segmentRows ==> r.booking in w.plans
  }

  ghost predicate Sound(w: World) { HomeOnly(w) && Fits(w) && RowsPlanned(w) }

  lemma EditsOnlyAtHome(owners: Owners, regime: Regime, w: World, step: Step)
    requires HomeOnly(w) && Concerns(step) && Enabled(owners, regime, w, step)
    ensures var e := EffectOf(owners, regime, w, step);
            e.v != w.plans[step.b].home ==> Edited(w.dbs[e.v], step.b, e.edit).bookings == w.dbs[e.v].bookings
  {}

  lemma MovingKeepsHomeOnly(owners: Owners, regime: Regime, w: World, step: Step, v: Vm, b: Id)
    requires HomeOnly(w) && Concerns(step) && Enabled(owners, regime, w, step)
    requires b in Moved(w, step.b, EffectOf(owners, regime, w, step)).dbs[v].bookings
    ensures b in w.plans && w.plans[b].home == v
  {
    var e := EffectOf(owners, regime, w, step);
    EditsOnlyAtHome(owners, regime, w, step);
    EffectAddsOwn(owners, regime, w, step);
    EditIsLocal(w.dbs[v], step.b, e.edit);
    if b != step.b || v != e.v { assert b in w.dbs[v].bookings; }
  }

  lemma IdlingKeepsHomeOnly(owners: Owners, regime: Regime, w: World, step: Step, w': World)
    requires HomeOnly(w) && !Concerns(step) && Next(owners, regime, w, step, w')
    ensures HomeOnly(w')
  {
    forall v: Vm, b | b in w'.dbs[v].bookings
      ensures b in w'.plans && w'.plans[b].home == v
    {
      assert b in w.dbs[v].bookings;
    }
  }

  lemma StepKeepsHomeOnly(owners: Owners, regime: Regime, w: World, step: Step, w': World)
    requires HomeOnly(w) && Next(owners, regime, w, step, w')
    ensures HomeOnly(w')
  {
    if Concerns(step) {
      forall v: Vm, b | b in Moved(w, step.b, EffectOf(owners, regime, w, step)).dbs[v].bookings
        ensures b in w.plans && w.plans[b].home == v
      {
        MovingKeepsHomeOnly(owners, regime, w, step, v, b);
      }
    } else {
      IdlingKeepsHomeOnly(owners, regime, w, step, w');
    }
  }

  lemma EditedRows(db: Db, b: Id, edit: Edit, r: Reservation)
    requires AddsOwn(b, edit) && (r in Edited(db, b, edit).reservations || r in Edited(db, b, edit).segmentRows)
    ensures r.booking == b || exists q :: (q in db.reservations || q in db.segmentRows) && q.booking == r.booking
  {
    EditShape(db, b, edit);
    if r.booking != b {
      var before, after := db, Edited(db, b, edit);
      assert r in db.reservations || r in db.segmentRows;
    }
  }

  lemma StepKeepsRowsPlanned(owners: Owners, regime: Regime, w: World, step: Step, w': World)
    requires RowsPlanned(w) && Next(owners, regime, w, step, w')
    ensures RowsPlanned(w')
  {
    if Concerns(step) {
      EffectAddsOwn(owners, regime, w, step);
      var e := EffectOf(owners, regime, w, step);
      forall v: Vm, r | r in w'.dbs[v].reservations || r in w'.dbs[v].segmentRows
        ensures r.booking in w'.plans
      {
        if v == e.v { EditedRows(w.dbs[v], step.b, e.edit, r); }
      }
    }
  }

  lemma MovingIsAlone(w: World, b: Id, e: Effect)
    requires b in w.plans
    ensures var w' := Moved(w, b, e);
            && w'.plans == w.plans && w'.now == w.now && w'.picks == w.picks
            && forall c :: c != b ==>
                 && (c in w'.sagas <==> c in w.sagas) && (c in w.sagas ==> w'.sagas[c] == w.sagas[c])
                 && (c in w.plans ==> w'.traces[c] == w.traces[c])
  {}

  lemma StepKeepsPlans(owners: Owners, regime: Regime, w: World, step: Step, w': World)
    requires Next(owners, regime, w, step, w')
    ensures forall b :: b in w.plans ==> b in w'.plans && w'.plans[b] == w.plans[b]
    ensures Concerns(step) ==> w'.plans == w.plans && w'.now == w.now && w'.picks == w.picks
    ensures Concerns(step) ==> forall c :: c != step.b ==>
              && (c in w'.sagas <==> c in w.sagas) && (c in w.sagas ==> w'.sagas[c] == w.sagas[c])
              && (c in w.plans ==> w'.traces[c] == w.traces[c])
  {
    if Concerns(step) { MovingIsAlone(w, step.b, EffectOf(owners, regime, w, step)); }
  }

  lemma StepKeepsSound(owners: Owners, regime: Regime, w: World, step: Step, w': World)
    requires Sound(w) && Next(owners, regime, w, step, w')
    ensures Sound(w')
  {
    StepKeepsHomeOnly(owners, regime, w, step, w');
    StepKeepsRowsPlanned(owners, regime, w, step, w');
    StepKeepsPlans(owners, regime, w, step, w');
  }

  lemma {:induction false} RunIsSound(owners: Owners, regime: Regime, worlds: seq<World>, steps: seq<Step>, i: nat)
    requires IsRun(owners, regime, worlds, steps) && i < |worlds|
    ensures Sound(worlds[i])
  {
    if i > 0 {
      RunIsSound(owners, regime, worlds, steps, i - 1);
      assert StepAt(owners, regime, worlds, steps, i - 1);
      StepKeepsSound(owners, regime, worlds[i - 1], steps[i - 1], worlds[i]);
    }
  }
}
