/** What one reconciler pass makes of any state that crashes, lost messages and faults can leave behind. */
module Recovery {
  import opened Basics
  import opened Database
  import opened Reconciler
  import opened Saga
  import opened BookingProtocol
  import opened Holdings
  import opened Backing

  // ---- No booking is ever pending ----

  ghost predicate Decided(w: World) {
    forall v: Vm, b :: b in w.dbs[v].bookings ==> w.dbs[v].bookings[b].status != Pending
  }

  lemma StepKeepsDecided(owners: Owners, regime: Regime, w: World, step: Step, w': World)
    requires Decided(w) && Next(owners, regime, w, step, w')
    ensures Decided(w')
  {
    if Concerns(step) {
      forall v: Vm, b | b in w'.dbs[v].bookings
        ensures w'.dbs[v].bookings[b].status != Pending
      {
        if b != step.b { StepIsLocal(owners, regime, w, step, w', v); }
      }
    }
  }

  lemma {:induction false} RunKeepsDecided(owners: Owners, regime: Regime, worlds: seq<World>, steps: seq<Step>, i: nat)
    requires IsRun(owners, regime, worlds, steps) && i < |worlds|
    ensures Decided(worlds[i])
  {
    if i > 0 {
      RunKeepsDecided(owners, regime, worlds, steps, i - 1);
      assert StepAt(owners, regime, worlds, steps, i - 1);
      StepKeepsDecided(owners, regime, worlds[i - 1], steps[i - 1], worlds[i]);
    }
  }

  // ---- What the pass leaves a booking with ----

  /** The pass takes everything from the bookings that it settles as dead, and nothing from the others. */
  lemma {:induction false} HoldingAfterPass(rows: seq<Reservation>, hit: Reservation -> bool, b: Id, dead: bool,
                                            slot: Slot)
    requires forall r: Reservation :: r.booking == b ==> hit(r) == dead
    ensures Holding(CancelWhere(rows, hit), b, slot) == if dead then 0 else Holding(rows, b, slot)
  {
    if rows != [] {
      HoldingAfterPass(rows[..|rows| - 1], hit, b, dead, slot);
      assert CancelWhere(rows, hit)[..|rows| - 1] == CancelWhere(rows[..|rows| - 1], hit);
    }
  }

  lemma GoalHoldings(db: Db, now: int, b: Id, slot: Slot)
    ensures Holding(Goal(db, now).reservations, b, slot) == if Dead(Settled(db, now, b)) then 0
            else Holding(db.reservations, b, slot)
  {
    HoldingAfterPass(db.reservations, (r: Reservation) => Dead(Settled(db, now, r.booking)), b,
                     Dead(Settled(db, now, b)), slot);
  }

  /** The world after an uninterrupted pass at one VM. */
  function Passed(w: World, v: Vm): World { w.(dbs := w.dbs[v := Goal(w.dbs[v], w.now)]) }

  /** A booking either stands, with every segment of its route held once at its owner, or is dead and holds nothing at
      home. */
  ghost predicate AllOrNothing(owners: Owners, w: World, v: Vm, b: Id)
    requires b in w.dbs[v].bookings
  {
    if w.dbs[v].bookings[b].status == Confirmed
    then b in w.plans && w.plans[b].home == v && Backed(owners, w, b)
    else Dead(w.dbs[v].bookings[b].status) && forall slot :: Holding(w.dbs[v].reservations, b, slot) == 0
  }

  lemma SettledHoldsNothing(owners: Owners, w: World, v: Vm, b: Id)
    requires b in w.dbs[v].bookings && Dead(Settled(w.dbs[v], w.now, b))
    ensures AllOrNothing(owners, Passed(w, v), v, b)
  {
    forall slot
      ensures Holding(Passed(w, v).dbs[v].reservations, b, slot) == 0
    {
      GoalHoldings(w.dbs[v], w.now, b, slot);
    }
  }

  lemma StandingStaysBacked(owners: Owners, w: World, v: Vm, b: Id)
    requires b in w.dbs[v].bookings && Settled(w.dbs[v], w.now, b) == Confirmed
    requires b in w.plans && w.plans[b].home == v && Backed(owners, w, b)
    ensures AllOrNothing(owners, Passed(w, v), v, b)
  {
    forall i | 0 <= i < |w.plans[b].segs|
      ensures Held(owners, Passed(w, v), b, i) == Held(owners, w, b, i)
    {
      GoalHoldings(w.dbs[v], w.now, b, SlotOf(w.plans[b].segs[i]));
    }
  }

  /** Over every prompt run, with crashes anywhere: once the unfinished bookings of a VM are past the orphan threshold,
      one pass there makes every one of its bookings all or nothing. */
  lemma PassMakesAtomic(owners: Owners, regime: Regime, worlds: seq<World>, steps: seq<Step>, i: nat, v: Vm, b: Id)
    requires Prompt(regime) && IsRun(owners, regime, worlds, steps) && i < |worlds| && b in worlds[i].dbs[v].bookings
    requires var booking := worlds[i].dbs[v].bookings[b];
             booking.status == SagaInProgress ==> booking.createdAt < worlds[i].now - ORPHAN_THRESHOLD
    ensures AllOrNothing(owners, Passed(worlds[i], v), v, b)
  {
    RunKeepsDecided(owners, regime, worlds, steps, i);
    if Dead(Settled(worlds[i].dbs[v], worlds[i].now, b)) {
      SettledHoldsNothing(owners, worlds[i], v, b);
    } else {
      PromptIsBacked(owners, regime, worlds, steps, i);
      StandingStaysBacked(owners, worlds[i], v, b);
    }
  }
}
