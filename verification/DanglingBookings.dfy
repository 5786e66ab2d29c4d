/** Which confirmed bookings the reconciler's first correction of partition inconsistencies can strike. */
module DanglingBookings {
  import opened Basics
  import opened RoadGraph
  import opened Timetable
  import opened Database
  import opened Reconciler
  import opened Saga
  import opened BookingProtocol
  import opened Holdings
  import opened Backing

  /** The home VM owns no segment of the route. */
  ghost predicate AllRemote(owners: Owners, p: Plan) {
    forall i :: 0 <= i < |p.segs| ==> IsRemote(owners, p, i)
  }

  ghost predicate Heard(rows: seq<Reservation>, b: Id) {
    exists r :: r in rows && r.booking == b
  }

  // ---- What an edit does to the public rows of a booking ----

  lemma AddedRowsOfOthers(rows: seq<Reservation>, more: seq<Reservation>, b: Id)
    requires forall r :: r in more ==> r.booking != b
    ensures Heard(rows + more, b) <==> Heard(rows, b)
    ensures HasConfirmedRow(rows + more, b) <==> HasConfirmedRow(rows, b)
  {
    if r :| r in rows && r.booking == b && r.status == Confirmed { assert r in rows + more; }
    if r :| r in rows && r.booking == b { assert r in rows + more; }
  }

  lemma ReleasedIsHeard(rows: seq<Reservation>, c: Id, b: Id)
    ensures Heard(Released(rows, ALL_SCHEMAS, c), b) <==> Heard(rows, b)
  {
    var after := Released(rows, ALL_SCHEMAS, c);
    if Heard(rows, b) {
      var i :| 0 <= i < |rows| && rows[i].booking == b;
      assert after[i] in after;
    }
    if Heard(after, b) {
      var i :| 0 <= i < |after| && after[i].booking == b;
      assert rows[i] in rows;
    }
  }

  lemma {:induction false} NoLocalRows(topo: Topology, b: Id, segs: seq<RouteSegment>)
    requires forall i :: 0 <= i < |segs| ==> !IsLocal(topo, segs[i].region)
    ensures Rows(topo, b, segs, true) == []
  {
    if segs != [] { NoLocalRows(topo, b, segs[..|segs| - 1]); }
  }

  /** The public rows a saga commits: none exactly if the route is all remote. */
  lemma SavedRows(owners: Owners, b: Id, p: Plan, before: seq<Reservation>)
    requires !Heard(before, b)
    ensures var after := before + Rows(Topo(owners, p.home), b, p.segs, true);
            (AllRemote(owners, p) ==> !Heard(after, b)) && (!AllRemote(owners, p) ==> HasConfirmedRow(after, b))
  {
    var rows := Rows(Topo(owners, p.home), b, p.segs, true);
    if AllRemote(owners, p) {
      forall i | 0 <= i < |p.segs|
        ensures !IsLocal(Topo(owners, p.home), p.segs[i].region)
      {
        LocalIffOwner(owners, p.home, p.segs[i].region);
        assert IsRemote(owners, p, i);
      }
      NoLocalRows(Topo(owners, p.home), b, p.segs);
    } else {
      var i :| 0 <= i < |p.segs| && !IsRemote(owners, p, i);
      LocalIffOwner(owners, p.home, p.segs[i].region);
      LocalRowIsWritten(Topo(owners, p.home), b, p.segs, i);
      assert Row(b, SlotOf(p.segs[i])) in before + rows;
    }
  }

  lemma EditKeepsOthersPublic(db: Db, c: Id, edit: Edit, b: Id)
    requires AddsOwn(c, edit) && b != c
    ensures Heard(Edited(db, c, edit).segmentRows, b) <==> Heard(db.segmentRows, b)
    ensures HasConfirmedRow(Edited(db, c, edit).segmentRows, b) <==> HasConfirmedRow(db.segmentRows, b)
  {
    EditShape(db, c, edit);
    AddedRowsOfOthers(db.segmentRows, if edit.SaveAll? then edit.rows else [], b);
    ReleasedIsHeard(db.segmentRows, c, b);
    ConfirmedRowsElsewhere(db.segmentRows, c, b);
  }

  // ---- Every prompt run ----

  /** Before its commit a booking has no public rows; an all-remote one never has any; a saved or confirmed one that is
      not all remote has a confirmed one. */
  ghost predicate PublicOk(owners: Owners, w: World, b: Id)
    requires b in w.plans
  {
    var p := w.plans[b];
    var db := w.dbs[p.home];
    && (AllRemote(owners, p) || (b in w.sagas && Early(w.sagas[b])) ==> !Heard(db.segmentRows, b))
    && (!AllRemote(owners, p) && b in w.sagas && Committed(w.sagas[b]) ==> HasConfirmedRow(db.segmentRows, b))
    && (!AllRemote(owners, p) && b in db.bookings && db.bookings[b].status == Confirmed ==>
            HasConfirmedRow(db.segmentRows, b))
  }

  lemma RepairKeepsPublic(owners: Owners, regime: Regime, w: World, step: Step)
    requires Prompt(regime) && HomeOnly(w) && (step.Cancel? || step.Correct?) && Enabled(owners, regime, w, step)
    requires PublicOk(owners, w, step.b) && (step.Correct? ==> PickOk(w, Pick(step.b, step.v, step.fix)))
    ensures PublicOk(owners, Moved(w, step.b, EffectOf(owners, regime, w, step)), step.b)
  {
    ReleasedIsHeard(w.dbs[w.plans[step.b].home].segmentRows, step.b, step.b);
  }

  lemma SagaStepKeepsPublic(owners: Owners, regime: Regime, w: World, step: Step)
    requires Concerns(step) && !step.Cancel? && !step.Correct? && Enabled(owners, regime, w, step)
    requires PublicOk(owners, w, step.b)
    ensures PublicOk(owners, Moved(w, step.b, EffectOf(owners, regime, w, step)), step.b)
  {
    if step.Save? { SavedRows(owners, step.b, w.plans[step.b], w.dbs[w.plans[step.b].home].segmentRows); }
  }

  lemma OtherStaysPublic(owners: Owners, regime: Regime, w: World, step: Step, w': World, c: Id)
    requires Concerns(step) && Next(owners, regime, w, step, w') && c != step.b && c in w.plans
             && PublicOk(owners, w, c)
    ensures PublicOk(owners, w', c)
  {
    StepKeepsPlans(owners, regime, w, step, w');
    StepIsLocal(owners, regime, w, step, w', w.plans[c].home);
    EffectAddsOwn(owners, regime, w, step);
    EditKeepsOthersPublic(w.dbs[w.plans[c].home], step.b, EffectOf(owners, regime, w, step).edit, c);
  }

  lemma StartIsPublic(owners: Owners, w: World, b: Id, plan: Plan)
    requires Sound(w) && b !in w.plans
    ensures PublicOk(owners, Started(w, b, plan), b)
  {}

  lemma StepKeepsPublic(owners: Owners, regime: Regime, w: World, step: Step, w': World, c: Id)
    requires Prompt(regime) && PromptInv(owners, regime, w) && Next(owners, regime, w, step, w')
    requires c in w'.plans && (c in w.plans ==> PublicOk(owners, w, c))
    ensures PublicOk(owners, w', c)
  {
    if Concerns(step) {
      if step.b != c {
        OtherStaysPublic(owners, regime, w, step, w', c);
      } else if step.Cancel? || step.Correct? {
        if step.Correct? { assert PickOk(w, Pick(step.b, step.v, step.fix)); }
        RepairKeepsPublic(owners, regime, w, step);
      } else {
        SagaStepKeepsPublic(owners, regime, w, step);
      }
    } else if step.Start? && step.b == c {
      StartIsPublic(owners, w, c, step.plan);
    }
  }

  lemma {:induction false} RunKeepsPublic(owners: Owners, regime: Regime, worlds: seq<World>, steps: seq<Step>, i: nat,
                                          b: Id)
    requires Prompt(regime) && IsRun(owners, regime, worlds, steps) && i < |worlds| && b in worlds[i].plans
    ensures PublicOk(owners, worlds[i], b)
  {
    if i > 0 {
      if b in worlds[i - 1].plans { RunKeepsPublic(owners, regime, worlds, steps, i - 1, b); }
      RunKeepsPromptInv(owners, regime, worlds, steps, i - 1);
      assert StepAt(owners, regime, worlds, steps, i - 1);
      StepKeepsPublic(owners, regime, worlds[i - 1], steps[i - 1], worlds[i], b);
    }
  }

  /** Over every prompt run, a confirmed booking past the age threshold is taken for a partition inconsistency, and
      cancelled by the next pass, exactly if its home VM owns no segment of its route: it is fully reserved at the peer
      and struck all the same. */
  lemma StruckIffAllRemote(owners: Owners, regime: Regime, worlds: seq<World>, steps: seq<Step>, i: nat, v: Vm, b: Id)
    requires Prompt(regime) && IsRun(owners, regime, worlds, steps) && i < |worlds|
    requires b in worlds[i].dbs[v].bookings && worlds[i].dbs[v].bookings[b].status == Confirmed
    requires worlds[i].dbs[v].bookings[b].createdAt < worlds[i].now - 120 * SECOND
    ensures b in worlds[i].plans && Backed(owners, worlds[i], b)
    ensures AllRemote(owners, worlds[i].plans[b]) <==> Dangling(worlds[i].dbs[v], worlds[i].now, b)
    ensures AllRemote(owners, worlds[i].plans[b])
            <==> Goal(worlds[i].dbs[v], worlds[i].now).bookings[b].status == Cancelled
  {
    PromptIsBacked(owners, regime, worlds, steps, i);
    RunKeepsPublic(owners, regime, worlds, steps, i, b);
  }

  /** Such bookings exist: a prompt run confirms an all-remote booking, and two minutes later Case A finds it. */
  lemma AllRemoteIsStruck(regime: Regime) returns (worlds: seq<World>, steps: seq<Step>)
    ensures IsRun({}, regime, worlds, steps)
    ensures var w := worlds[|steps|];
            && w.plans == map[0 := ONE_STOP] && AllRemote({}, ONE_STOP)
            && w.dbs[0].bookings == map[0 := Booking(0, Confirmed, 0)] && Held({}, w, 0, 0) == 1
            && Dangling(w.dbs[0], w.now, 0)
  {
    worlds, steps := ConfirmsRemote(regime);
    var w := worlds[|steps|];
    var late := w.(now := DANGLING_THRESHOLD + 1);
    RunGoesOn({}, regime, worlds, steps, Tick(DANGLING_THRESHOLD + 1), late);
    worlds, steps := worlds + [late], steps + [Tick(DANGLING_THRESHOLD + 1)];
    HoldingsAreExact({}, regime, worlds, steps, |steps|, 0);
  }

  lemma SavesRemote(regime: Regime) returns (worlds: seq<World>, steps: seq<Step>)
    ensures IsRun({}, regime, worlds, steps)
    ensures var w := worlds[|steps|];
            && w.now == 0 && w.plans == map[0 := ONE_STOP] && w.sagas == map[0 := Saved(true)]
            && w.traces == map[0 := Trace(1, NoCall, NotSent, true, {}, false)] && w.dbs[0].segmentRows == []
            && w.dbs[0].bookings == map[0 := Booking(0, SagaInProgress, 0)]
  {
    worlds, steps := Starts({}, regime, ONE_STOP);
    worlds, steps := Takes({}, regime, worlds, steps, Ask(0));
    worlds, steps := Takes({}, regime, worlds, steps, Land(0));
    worlds, steps := Takes({}, regime, worlds, steps, Reply(0));
    LocalIffOwner({}, 0, Ireland);
    NoLocalRows(Topo({}, 0), 0, ONE_STOP.segs);
    worlds, steps := Takes({}, regime, worlds, steps, Save(0));
  }

  lemma ConfirmsRemote(regime: Regime) returns (worlds: seq<World>, steps: seq<Step>)
    ensures IsRun({}, regime, worlds, steps)
    ensures var w := worlds[|steps|];
            && w.now == 0 && w.plans == map[0 := ONE_STOP] && w.sagas == map[]
            && w.traces == map[0 := Trace(1, NoCall, NotSent, true, {}, false)] && w.dbs[0].segmentRows == []
            && w.dbs[0].bookings == map[0 := Booking(0, Confirmed, 0)]
  {
    worlds, steps := SavesRemote(regime);
    worlds, steps := Takes({}, regime, worlds, steps, Publish(0, true));
    worlds, steps := Takes({}, regime, worlds, steps, Confirm(0));
    worlds, steps := Takes({}, regime, worlds, steps, Return(0));
  }
}
