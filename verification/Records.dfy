/** Which rows an unfinished or confirmed booking is sure to have left in its home database. */
module Records {
  import opened Basics
  import opened Database
  import opened Saga
  import opened BookingProtocol

  /** Both tables of the home database know every local segment of the route, in whatever status. */
  ghost predicate Recorded(owners: Owners, db: Db, b: Id, p: Plan) {
    forall i :: 0 <= i < |p.segs| && !IsRemote(owners, p, i) ==>
      var slot := Slot(p.segs[i].region, p.segs[i].segmentId, p.segs[i].slotStart);
      HasRow(db.reservations, b, slot) && HasRow(db.segmentRows, b, slot)
  }

  predicate Live(s: Status) { s == SagaInProgress || s == Confirmed }

  ghost predicate RecordedOk(owners: Owners, w: World, b: Id)
    requires b in w.plans
  {
    var p := w.plans[b];
    var db := w.dbs[p.home];
    && (b in db.bookings && Live(db.bookings[b].status) ==> Recorded(owners, db, b, p))
    && (b in w.sagas && (w.sagas[b].Saved? || w.sagas[b].Published? || w.sagas[b].Written?) ==>
            Recorded(owners, db, b, p))
  }

  lemma SaveRecords(owners: Owners, db: Db, b: Id, p: Plan)
    ensures Recorded(owners, WithRows(db, Rows(Topo(owners, p.home), b, p.segs, true)), b, p)
  {
    var rows := Rows(Topo(owners, p.home), b, p.segs, true);
    forall i | 0 <= i < |p.segs| && !IsRemote(owners, p, i)
      ensures HasRow(db.reservations + rows, b, SlotOf(p.segs[i]))
              && HasRow(db.segmentRows + rows, b, SlotOf(p.segs[i]))
    {
      LocalIffOwner(owners, p.home, p.segs[i].region);
      LocalRowIsWritten(Topo(owners, p.home), b, p.segs, i);
      var r := Row(b, SlotOf(p.segs[i]));
      assert r in db.reservations + rows && r in db.segmentRows + rows;
    }
  }

  lemma SavedIsRecorded(owners: Owners, regime: Regime, w: World, b: Id)
    requires Enabled(owners, regime, w, Save(b))
    ensures RecordedOk(owners, Moved(w, b, EffectOf(owners, regime, w, Save(b))), b)
  {
    SaveRecords(owners, w.dbs[w.plans[b].home], b, w.plans[b]);
  }

  lemma KeepsRecorded(owners: Owners, db: Db, db': Db, b: Id, p: Plan)
    requires KeepsRows(db, db') && Recorded(owners, db, b, p)
    ensures Recorded(owners, db', b, p)
  {}

  /** Without a commit of reservations, only a booking whose local segments are recorded can become live. */
  lemma NothingBecomesLive(owners: Owners, regime: Regime, w: World, step: Step)
    requires Concerns(step) && !step.Save? && Enabled(owners, regime, w, step) && HomeOnly(w)
    requires RecordedOk(owners, w, step.b) && !Recorded(owners, w.dbs[w.plans[step.b].home], step.b, w.plans[step.b])
    ensures var home, w' := w.plans[step.b].home, Moved(w, step.b, EffectOf(owners, regime, w, step));
            && (step.b in w'.dbs[home].bookings ==> !Live(w'.dbs[home].bookings[step.b].status))
            && (step.b in w'.sagas ==>
                  !w'.sagas[step.b].Saved? && !w'.sagas[step.b].Published? && !w'.sagas[step.b].Written?)
  {}

  lemma MovedStaysRecorded(owners: Owners, regime: Regime, w: World, step: Step)
    requires Concerns(step) && Enabled(owners, regime, w, step) && HomeOnly(w) && RecordedOk(owners, w, step.b)
    requires var p, e := w.plans[step.b], EffectOf(owners, regime, w, step);
             KeepsRows(w.dbs[p.home], Moved(w, step.b, e).dbs[p.home])
    ensures RecordedOk(owners, Moved(w, step.b, EffectOf(owners, regime, w, step)), step.b)
  {
    var p, w' := w.plans[step.b], Moved(w, step.b, EffectOf(owners, regime, w, step));
    if step.Save? {
      SavedIsRecorded(owners, regime, w, step.b);
    } else if Recorded(owners, w.dbs[p.home], step.b, p) {
      KeepsRecorded(owners, w.dbs[p.home], w'.dbs[p.home], step.b, p);
    } else {
      NothingBecomesLive(owners, regime, w, step);
    }
  }

  lemma OtherStaysRecorded(owners: Owners, regime: Regime, w: World, step: Step, w': World, c: Id)
    requires Concerns(step) && Next(owners, regime, w, step, w') && c != step.b && c in w.plans
             && RecordedOk(owners, w, c)
    ensures RecordedOk(owners, w', c)
  {
    StepKeepsPlans(owners, regime, w, step, w');
    StepIsLocal(owners, regime, w, step, w', w.plans[c].home);
  }

  lemma StepKeepsRecorded(owners: Owners, regime: Regime, w: World, step: Step, w': World, c: Id)
    requires Sound(w) && Next(owners, regime, w, step, w') && c in w'.plans
             && (c in w.plans ==> RecordedOk(owners, w, c))
    ensures RecordedOk(owners, w', c)
  {
    if Concerns(step) {
      StepIsLocal(owners, regime, w, step, w', w.plans[step.b].home);
      if step.b == c {
        MovedStaysRecorded(owners, regime, w, step);
      } else {
        OtherStaysRecorded(owners, regime, w, step, w', c);
      }
    }
  }

  lemma {:induction false} RunKeepsRecorded(owners: Owners, regime: Regime, worlds: seq<World>, steps: seq<Step>,
                                            i: nat, b: Id)
    requires IsRun(owners, regime, worlds, steps) && i < |worlds| && b in worlds[i].plans
    ensures RecordedOk(owners, worlds[i], b)
  {
    if i > 0 {
      if b in worlds[i - 1].plans { RunKeepsRecorded(owners, regime, worlds, steps, i - 1, b); }
      RunIsSound(owners, regime, worlds, steps, i - 1);
      assert StepAt(owners, regime, worlds, steps, i - 1);
      StepKeepsRecorded(owners, regime, worlds[i - 1], steps[i - 1], worlds[i], b);
    }
  }

  /** Over every crash-prone run, with sagas of any length: an unfinished or confirmed booking has a regional row and a
      public row for every local segment of its route. */
  lemma LiveBookingsAreRecorded(owners: Owners, regime: Regime, worlds: seq<World>, steps: seq<Step>, i: nat, v: Vm,
                                b: Id)
    requires IsRun(owners, regime, worlds, steps) && i < |worlds|
    requires b in worlds[i].dbs[v].bookings && Live(worlds[i].dbs[v].bookings[b].status)
    ensures b in worlds[i].plans && worlds[i].plans[b].home == v
            && Recorded(owners, worlds[i].dbs[v], b, worlds[i].plans[b])
  {
    RunIsSound(owners, regime, worlds, steps, i);
    RunKeepsRecorded(owners, regime, worlds, steps, i, b);
  }

  // ---- Who writes which status ----

  /** The status CONFIRMED is written only by a call whose saga has returned, and never by anybody else. */
  lemma OnlyCallsConfirm(owners: Owners, regime: Regime, worlds: seq<World>, steps: seq<Step>, i: nat, v: Vm, b: Id)
    requires IsRun(owners, regime, worlds, steps) && i < |steps|
    requires b in worlds[i + 1].dbs[v].bookings && worlds[i + 1].dbs[v].bookings[b].status == Confirmed
    requires b !in worlds[i].dbs[v].bookings || worlds[i].dbs[v].bookings[b].status != Confirmed
    ensures steps[i] == Confirm(b) && b in worlds[i].sagas && worlds[i].sagas[b].Published?
  {
    assert StepAt(owners, regime, worlds, steps, i);
    if Concerns(steps[i]) && steps[i].b != b { StepIsLocal(owners, regime, worlds[i], steps[i], worlds[i + 1], v); }
  }

  /** A call that does not crash commits CONFIRMED, or else it ends by committing REJECTED. */
  lemma CallsEndDecided(owners: Owners, regime: Regime, worlds: seq<World>, steps: seq<Step>, i: nat, b: Id)
    requires IsRun(owners, regime, worlds, steps) && i < |steps|
    requires b in worlds[i].sagas && b !in worlds[i + 1].sagas
    requires !steps[i].Crash? && !steps[i].Die?
    ensures var home := worlds[i + 1].dbs[worlds[i].plans[b].home];
            || (worlds[i].sagas[b].Written? && worlds[i + 1].dbs == worlds[i].dbs)
            || (b in home.bookings && home.bookings[b].status == Rejected)
  {
    assert StepAt(owners, regime, worlds, steps, i);
    StepKeepsPlans(owners, regime, worlds[i], steps[i], worlds[i + 1]);
  }

  /** And the step before which it had not yet committed CONFIRMED writes just that. */
  lemma ConfirmingWritesConfirmed(owners: Owners, regime: Regime, worlds: seq<World>, steps: seq<Step>, i: nat, b: Id)
    requires IsRun(owners, regime, worlds, steps) && i < |steps|
    requires b in worlds[i + 1].sagas && worlds[i + 1].sagas[b].Written?
    requires b in worlds[i].sagas && !worlds[i].sagas[b].Written?
    ensures worlds[i].sagas[b].Published?
    ensures var home := worlds[i + 1].dbs[worlds[i].plans[b].home];
            b in home.bookings && home.bookings[b].status == Confirmed
  {
    assert StepAt(owners, regime, worlds, steps, i);
    StepKeepsPlans(owners, regime, worlds[i], steps[i], worlds[i + 1]);
  }
}
