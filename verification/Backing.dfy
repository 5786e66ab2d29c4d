/** When a confirmed booking is sure to be reserved, on both VMs and in every run. */
module Backing {
  import opened Basics
  import opened RoadGraph
  import opened Database
  import opened Reconciler
  import opened Saga
  import opened BookingProtocol
  import opened Holdings

  // ---- Runs whose sagas are prompt ----

  ghost predicate Young(regime: Regime, w: World) {
    forall b :: b in w.sagas ==> w.now - w.plans[b].startedAt <= regime.limit
  }

  /** The status of a booking whose saga still runs. */
  predicate StatusOfPhase(status: Status, phase: Phase) {
    status == if phase.Written? then Confirmed else SagaInProgress
  }

  predicate Committed(phase: Phase) { phase.Saved? || phase.Published? || phase.Written? }

  ghost predicate PickOk(w: World, pick: Pick) {
    && pick.b in w.plans && pick.b !in w.sagas
    && (pick.fix.LingeringFix? ==> pick.b in w.dbs[pick.v].bookings && Dead(w.dbs[pick.v].bookings[pick.b].status))
  }

  ghost predicate PromptOk(w: World, b: Id)
    requires b in w.plans
  {
    var p, t, bookings := w.plans[b], w.traces[b], w.dbs[w.plans[b].home].bookings;
    && (b in w.sagas && b in bookings ==>
            bookings[b].createdAt == p.startedAt && StatusOfPhase(bookings[b].status, w.sagas[b]))
    && (b in w.sagas && Committed(w.sagas[b]) ==> b in bookings && t.freed == {})
    && (b in bookings && bookings[b].status == Confirmed ==> t.saved && t.freed == {} && t.release.NotSent?)
  }

  ghost predicate PromptInv(owners: Owners, regime: Regime, w: World) {
    && Sound(w) && Young(regime, w)
    && (forall b :: b in w.plans ==> BookingOk(owners, w, b) && PromptOk(w, b))
    && (forall pick :: pick in w.picks ==> PickOk(w, pick))
  }

  lemma RepairStaysPrompt(owners: Owners, regime: Regime, w: World, step: Step)
    requires Prompt(regime) && HomeOnly(w) && (step.Cancel? || step.Correct?) && Enabled(owners, regime, w, step)
    requires PromptOk(w, step.b) && (step.Correct? ==> PickOk(w, Pick(step.b, step.v, step.fix)))
    ensures PromptOk(Moved(w, step.b, EffectOf(owners, regime, w, step)), step.b)
  {}

  lemma WriteStaysPrompt(owners: Owners, regime: Regime, w: World, step: Step)
    requires (step.Save? || step.Confirm? || step.Reject? || step.RejectLate?) && Enabled(owners, regime, w, step)
    requires PromptOk(w, step.b) && BookingOk(owners, w, step.b)
    ensures PromptOk(Moved(w, step.b, EffectOf(owners, regime, w, step)), step.b)
  {}

  lemma SilentStaysPrompt(owners: Owners, regime: Regime, w: World, step: Step)
    requires Concerns(step) && !step.Cancel? && !step.Correct? && !step.Save? && !step.Confirm? && !step.Reject?
             && !step.RejectLate?
    requires Enabled(owners, regime, w, step) && PromptOk(w, step.b) && BookingOk(owners, w, step.b)
    ensures PromptOk(Moved(w, step.b, EffectOf(owners, regime, w, step)), step.b)
  {}

  lemma MovedStaysPrompt(owners: Owners, regime: Regime, w: World, step: Step, w': World)
    requires Prompt(regime) && PromptInv(owners, regime, w) && Concerns(step) && Next(owners, regime, w, step, w')
    ensures PromptOk(w', step.b)
  {
    assert BookingOk(owners, w, step.b) && PromptOk(w, step.b);
    if step.Cancel? || step.Correct? {
      RepairStaysPrompt(owners, regime, w, step);
    } else if step.Save? || step.Confirm? || step.Reject? || step.RejectLate? {
      WriteStaysPrompt(owners, regime, w, step);
    } else {
      SilentStaysPrompt(owners, regime, w, step);
    }
  }

  lemma OtherStaysPrompt(owners: Owners, regime: Regime, w: World, step: Step, w': World, c: Id)
    requires Concerns(step) && Next(owners, regime, w, step, w') && c != step.b && c in w.plans && PromptOk(w, c)
    ensures PromptOk(w', c)
  {
    StepKeepsPlans(owners, regime, w, step, w');
    StepIsLocal(owners, regime, w, step, w', w.plans[c].home);
  }

  lemma BookingStaysPrompt(owners: Owners, regime: Regime, w: World, step: Step, w': World, c: Id)
    requires Prompt(regime) && PromptInv(owners, regime, w) && Next(owners, regime, w, step, w') && c in w'.plans
    ensures PromptOk(w', c)
  {
    if Concerns(step) {
      if step.b == c {
        MovedStaysPrompt(owners, regime, w, step, w');
      } else {
        OtherStaysPrompt(owners, regime, w, step, w', c);
      }
    } else if c in w.plans {
      assert PromptOk(w, c);
    }
  }

  /** What a reconciler selects is no running saga, since those are too young and have no dead status. */
  lemma SelectedIsOver(owners: Owners, regime: Regime, w: World, b: Id, v: Vm, fix: Fix)
    requires Prompt(regime) && PromptInv(owners, regime, w) && Found(w.dbs[v], w.now, b, fix)
    ensures PickOk(w, Pick(b, v, fix))
  {
    assert b in w.dbs[v].bookings && w.plans[b].home == v;
    assert PromptOk(w, b);
  }

  lemma PickStaysOk(owners: Owners, regime: Regime, w: World, step: Step, w': World, pick: Pick)
    requires PromptInv(owners, regime, w) && Concerns(step) && Next(owners, regime, w, step, w') && PickOk(w, pick)
    ensures PickOk(w', pick)
  {
    StepKeepsPlans(owners, regime, w, step, w');
    StepIsLocal(owners, regime, w, step, w', pick.v);
  }

  lemma PicksStayOk(owners: Owners, regime: Regime, w: World, step: Step, w': World)
    requires Prompt(regime) && PromptInv(owners, regime, w) && Next(owners, regime, w, step, w')
    ensures forall pick :: pick in w'.picks ==> PickOk(w', pick)
  {
    forall pick | pick in w'.picks
      ensures PickOk(w', pick)
    {
      if Concerns(step) {
        PickStaysOk(owners, regime, w, step, w', pick);
      } else if step.Select? && pick == Pick(step.b, step.v, step.fix) {
        SelectedIsOver(owners, regime, w, step.b, step.v, step.fix);
      } else {
        assert PickOk(w, pick);
      }
    }
  }

  lemma StepKeepsYoung(owners: Owners, regime: Regime, w: World, step: Step, w': World)
    requires Young(regime, w) && Next(owners, regime, w, step, w')
    ensures Young(regime, w')
  {
    StepKeepsPlans(owners, regime, w, step, w');
  }

  lemma StepKeepsPromptInv(owners: Owners, regime: Regime, w: World, step: Step, w': World)
    requires Prompt(regime) && PromptInv(owners, regime, w) && Next(owners, regime, w, step, w')
    ensures PromptInv(owners, regime, w')
  {
    StepKeepsSound(owners, regime, w, step, w');
    StepKeepsYoung(owners, regime, w, step, w');
    PicksStayOk(owners, regime, w, step, w');
    forall b | b in w'.plans
      ensures BookingOk(owners, w', b) && PromptOk(w', b)
    {
      StepKeepsOk(owners, regime, w, step, w', b);
      BookingStaysPrompt(owners, regime, w, step, w', b);
    }
  }

  lemma {:induction false} RunKeepsPromptInv(owners: Owners, regime: Regime, worlds: seq<World>, steps: seq<Step>,
                                             i: nat)
    requires Prompt(regime) && IsRun(owners, regime, worlds, steps) && i < |worlds|
    ensures PromptInv(owners, regime, worlds[i])
  {
    if i > 0 {
      RunKeepsPromptInv(owners, regime, worlds, steps, i - 1);
      assert StepAt(owners, regime, worlds, steps, i - 1);
      StepKeepsPromptInv(owners, regime, worlds[i - 1], steps[i - 1], worlds[i]);
    }
  }

  // ---- Confirmed means reserved ----

  ghost predicate Backed(owners: Owners, w: World, b: Id)
    requires b in w.plans
  {
    forall i :: 0 <= i < |w.plans[b].segs| ==> Held(owners, w, b, i) == 1
  }

  /** A confirmed booking has exactly one active reservation for every segment of its route, at the VM that owns it. */
  ghost predicate ConfirmedIsBacked(owners: Owners, w: World) {
    forall v: Vm, b :: b in w.dbs[v].bookings && w.dbs[v].bookings[b].status == Confirmed ==>
      b in w.plans && w.plans[b].home == v && Backed(owners, w, b)
  }

  ghost predicate AlwaysBacked(regime: Regime) {
    forall owners: Owners, worlds: seq<World>, steps: seq<Step>, i: nat ::
      IsRun(owners, regime, worlds, steps) && i < |worlds| ==> ConfirmedIsBacked(owners, worlds[i])
  }

  lemma ConfirmedHoldsAll(owners: Owners, regime: Regime, w: World, b: Id)
    requires PromptInv(owners, regime, w) && b in w.plans
    requires var bookings := w.dbs[w.plans[b].home].bookings; b in bookings && bookings[b].status == Confirmed
    ensures Backed(owners, w, b)
  {
    assert BookingOk(owners, w, b) && PromptOk(w, b);
  }

  lemma PromptIsBacked(owners: Owners, regime: Regime, worlds: seq<World>, steps: seq<Step>, i: nat)
    requires Prompt(regime) && IsRun(owners, regime, worlds, steps) && i < |worlds|
    ensures ConfirmedIsBacked(owners, worlds[i])
  {
    RunKeepsPromptInv(owners, regime, worlds, steps, i);
    forall v: Vm, b | b in worlds[i].dbs[v].bookings && worlds[i].dbs[v].bookings[b].status == Confirmed
      ensures b in worlds[i].plans && worlds[i].plans[b].home == v && Backed(owners, worlds[i], b)
    {
      ConfirmedHoldsAll(owners, regime, worlds[i], b);
    }
  }

  // ---- Runs that are not prompt ----

  /** The world right after the commit of a booking for one local segment. */
  ghost predicate JustSaved(w: World) {
    && w.now == 0 && w.plans == map[0 := ONE_STOP] && w.sagas == map[0 := Saved(false)] && w.picks == {}
    && w.traces == map[0 := Trace(1, NoCall, NotSent, true, {}, false)]
    && w.dbs[0].bookings == map[0 := Booking(0, SagaInProgress, 0)]
    && Row(0, SlotOf(ONE_STOP.segs[0])) in w.dbs[0].reservations
  }

  lemma Saves(regime: Regime) returns (worlds: seq<World>, steps: seq<Step>)
    ensures IsRun(ALL_SCHEMAS, regime, worlds, steps) && JustSaved(worlds[|steps|])
  {
    AllSchemas(Ireland);
    worlds, steps := Starts(ALL_SCHEMAS, regime, ONE_STOP);
    worlds, steps := Takes(ALL_SCHEMAS, regime, worlds, steps, ReserveHere(0));
    LocalRowIsWritten(Topo(ALL_SCHEMAS, 0), 0, ONE_STOP.segs, 0);
    worlds, steps := Takes(ALL_SCHEMAS, regime, worlds, steps, Save(0));
  }

  /** The saga whose rows have been freed publishes and confirms. */
  lemma ConfirmsAnyway(regime: Regime, worlds: seq<World>, steps: seq<Step>, freed: set<Region>)
    returns (worlds': seq<World>, steps': seq<Step>)
    requires IsRun(ALL_SCHEMAS, regime, worlds, steps) && Ireland in freed
    requires var w := worlds[|steps|];
             && w.plans == map[0 := ONE_STOP] && w.sagas == map[0 := Saved(false)]
             && w.traces == map[0 := Trace(1, NoCall, NotSent, true, freed, false)]
    ensures IsRun(ALL_SCHEMAS, regime, worlds', steps') && !ConfirmedIsBacked(ALL_SCHEMAS, worlds'[|steps'|])
  {
    worlds', steps' := Takes(ALL_SCHEMAS, regime, worlds, steps, Publish(0, true));
    worlds', steps' := Takes(ALL_SCHEMAS, regime, worlds', steps', Confirm(0));
    var last := worlds'[|steps'|];
    HoldingsAreExact(ALL_SCHEMAS, regime, worlds', steps', |steps'|, 0);
    AllSchemas(Ireland);
    assert Held(ALL_SCHEMAS, last, 0, 0) == 0;
    var home: Vm := 0;
    assert 0 in last.dbs[home].bookings && last.dbs[home].bookings[0].status == Confirmed;
  }

  /** A reconciler frees the rows of a running saga behind its back. */
  lemma FreedBehindItsBack(regime: Regime, worlds: seq<World>, steps: seq<Step>, fix: Fix)
    returns (worlds': seq<World>, steps': seq<Step>)
    requires IsRun(ALL_SCHEMAS, regime, worlds, steps)
    requires var w := worlds[|steps|];
             && w.plans == map[0 := ONE_STOP] && w.sagas == map[0 := Saved(false)]
             && w.traces == map[0 := Trace(1, NoCall, NotSent, true, {}, false)]
             && Found(w.dbs[0], w.now, 0, fix) && Ireland in Scope(fix)
    ensures IsRun(ALL_SCHEMAS, regime, worlds', steps') && !ConfirmedIsBacked(ALL_SCHEMAS, worlds'[|steps'|])
  {
    var w := worlds[|steps|];
    var picked := w.(picks := w.picks + {Pick(0, 0, fix)});
    RunGoesOn(ALL_SCHEMAS, regime, worlds, steps, Select(0, 0, fix), picked);
    worlds', steps' := worlds + [picked], steps + [Select(0, 0, fix)];
    worlds', steps' := Takes(ALL_SCHEMAS, regime, worlds', steps', Correct(0, 0, fix));
    assert {} + Scope(fix) == Scope(fix);
    assert worlds'[|steps'|].traces == map[0 := Trace(1, NoCall, NotSent, true, Scope(fix), false)];
    worlds', steps' := ConfirmsAnyway(regime, worlds', steps', Scope(fix));
  }

  /** The saga stalls between its commit and its publication; the reconciler takes it for an orphan, and then it
      confirms. */
  lemma StalledSagaConfirmsUnbacked(regime: Regime) returns (worlds: seq<World>, steps: seq<Step>)
    requires regime.limit > ORPHAN_THRESHOLD
    ensures IsRun(ALL_SCHEMAS, regime, worlds, steps) && !ConfirmedIsBacked(ALL_SCHEMAS, worlds[|steps|])
  {
    worlds, steps := Saves(regime);
    var late := worlds[|steps|].(now := ORPHAN_THRESHOLD + 1);
    RunGoesOn(ALL_SCHEMAS, regime, worlds, steps, Tick(ORPHAN_THRESHOLD + 1), late);
    worlds, steps := worlds + [late], steps + [Tick(ORPHAN_THRESHOLD + 1)];
    AllSchemas(Ireland);
    worlds, steps := FreedBehindItsBack(regime, worlds, steps, OrphanFix);
  }

  /** The driver cancels between the commit and the publication; a pass frees the rows, and then the saga confirms. */
  lemma CancelledSagaConfirmsUnbacked(regime: Regime) returns (worlds: seq<World>, steps: seq<Step>)
    requires regime.cancelsRunning
    ensures IsRun(ALL_SCHEMAS, regime, worlds, steps) && !ConfirmedIsBacked(ALL_SCHEMAS, worlds[|steps|])
  {
    worlds, steps := Saves(regime);
    worlds, steps := Takes(ALL_SCHEMAS, regime, worlds, steps, Cancel(0, 0));
    worlds, steps := FreedBehindItsBack(regime, worlds, steps, LingeringFix(Ireland));
  }

  /** Confirmed bookings stay fully reserved on both VMs, under every interleaving, exactly when no saga outlives the
      reconciler's orphan threshold and no booking is cancelled while it is being made. */
  lemma BackedIffPrompt(regime: Regime)
    ensures AlwaysBacked(regime) <==> regime.limit <= 60 * SECOND && !regime.cancelsRunning
  {
    if Prompt(regime) {
      forall owners: Owners, worlds: seq<World>, steps: seq<Step>, i: nat | IsRun(owners, regime, worlds, steps)
          && i < |worlds|
        ensures ConfirmedIsBacked(owners, worlds[i])
      {
        PromptIsBacked(owners, regime, worlds, steps, i);
      }
    } else {
      var worlds, steps;
      if regime.cancelsRunning {
        worlds, steps := CancelledSagaConfirmsUnbacked(regime);
      } else {
        worlds, steps := StalledSagaConfirmsUnbacked(regime);
      }
      assert !ConfirmedIsBacked(ALL_SCHEMAS, worlds[|steps|]);
    }
  }
}
