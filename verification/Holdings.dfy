/** Exactly which reservations a booking has on both VMs, in every run, and what nobody ever releases. */
module Holdings {
  import opened Basics
  import opened RoadGraph
  import opened Database
  import opened Saga
  import opened BookingProtocol

  /** Active rows that segment `i` of the route has at its owner. */
  ghost function Held(owners: Owners, w: World, b: Id, i: nat): nat
    requires b in w.plans && i < |w.plans[b].segs|
  {
    var seg := w.plans[b].segs[i];
    Holding(w.dbs[OwnerOf(owners, seg.region)].reservations, b, Slot(seg.region, seg.segmentId, seg.slotStart))
  }

  /** Whether the booking still has segment `i`: at home, if the saga committed and nobody cancelled the rows of that
      schema since; at the peer, if the reservation was acknowledged or has landed, and no release was run there
      afterwards. */
  predicate Owed(owners: Owners, p: Plan, t: Trace, i: nat)
    requires i < |p.segs|
  {
    if !IsRemote(owners, p, i) then t.saved && p.segs[i].region !in t.freed
    else (i < t.done && !t.release.Applied?) || (i == t.done && t.call == Landed(true))
  }

  ghost predicate HoldsOwed(owners: Owners, w: World, b: Id)
    requires b in w.plans
  {
    forall i :: 0 <= i < |w.plans[b].segs|
        ==> Held(owners, w, b, i) == if Owed(owners, w.plans[b], w.traces[b], i) then 1 else 0
  }

  /** One of the first `n` segments is remote. */
  predicate RemoteBefore(owners: Owners, p: Plan, n: nat)
    requires n <= |p.segs|
  {
    exists i :: 0 <= i < n && IsRemote(owners, p, i)
  }

  ghost predicate TraceOk(owners: Owners, p: Plan, t: Trace) {
    && t.done <= |p.segs|
    && (t.call != NoCall ==> t.done < |p.segs| && IsRemote(owners, p, t.done))
    && (t.call == Landed(false) ==> t.release.Applied?)
    && (t.saved ==> t.done == |p.segs|)
    && (t.down ==> t.release.NotSent?)
    && (t.release.NotSent? || RemoteBefore(owners, p, t.done))
  }

  /** What the phase of a running saga says about its trace. */
  ghost predicate PhaseOk(owners: Owners, p: Plan, t: Trace, phase: Phase)
    requires TraceOk(owners, p, t)
  {
    match phase
    case Reserving(pr) =>
      t.call == NoCall && t.release.NotSent? && !t.saved && t.freed == {} && !t.down
          && pr == RemoteBefore(owners, p, t.done)
    case Asking(pr) =>
      t.call != NoCall && t.release.NotSent? && !t.saved && t.freed == {} && !t.down
          && pr == RemoteBefore(owners, p, t.done)
    case Saved(pr) => t.saved && t.release.NotSent? && !t.down && pr == RemoteBefore(owners, p, t.done)
    case Published => t.saved && t.release.NotSent? && !t.down
    case Written => t.saved && t.release.NotSent? && !t.down
    case Failed(pr, unavailable) => t.release.NotSent? && unavailable == t.down && pr == RemoteBefore(owners, p, t.done)
    case Compensated(callPeer) => t.release.NotSent? && callPeer == (!t.down && RemoteBefore(owners, p, t.done))
    case Finishing => !t.release.NotSent? <==> !t.down && RemoteBefore(owners, p, t.done)
  }

  predicate Early(phase: Phase) { phase.Reserving? || phase.Asking? }

  ghost predicate BookingOk(owners: Owners, w: World, b: Id)
    requires b in w.plans
  {
    && TraceOk(owners, w.plans[b], w.traces[b]) && HoldsOwed(owners, w, b)
    && (b in w.sagas ==> PhaseOk(owners, w.plans[b], w.traces[b], w.sagas[b]))
    && (b in w.sagas && Early(w.sagas[b]) ==> b !in w.dbs[w.plans[b].home].bookings)
  }

  // ---- Traces ----

  lemma OneMoreDone(owners: Owners, p: Plan, n: nat)
    requires n < |p.segs|
    ensures RemoteBefore(owners, p, n + 1) <==> RemoteBefore(owners, p, n) || IsRemote(owners, p, n)
  {
    if i :| 0 <= i < n && IsRemote(owners, p, i) { assert 0 <= i < n + 1; }
  }

  /** Steps of the network, a driver or a reconciler, which leave the process of the saga where it is. */
  predicate IsOutside(step: Step) { step.Land? || step.ReleaseLands? || step.Cancel? || step.Correct? }

  lemma OutsideKeepsTrace(owners: Owners, regime: Regime, w: World, step: Step)
    requires IsOutside(step) && Enabled(owners, regime, w, step) && BookingOk(owners, w, step.b) && HomeOnly(w)
    ensures var e, p := EffectOf(owners, regime, w, step), w.plans[step.b];
            TraceOk(owners, p, e.trace) && (e.saga.Some? ==> PhaseOk(owners, p, e.trace, e.saga.value))
  {}

  lemma ProcessKeepsTrace(owners: Owners, regime: Regime, w: World, step: Step)
    requires Concerns(step) && !IsOutside(step) && Enabled(owners, regime, w, step) && BookingOk(owners, w, step.b)
    ensures var e, p := EffectOf(owners, regime, w, step), w.plans[step.b];
            TraceOk(owners, p, e.trace) && (e.saga.Some? ==> PhaseOk(owners, p, e.trace, e.saga.value))
  {
    var p, t := w.plans[step.b], w.traces[step.b];
    if t.done < |p.segs| { OneMoreDone(owners, p, t.done); }
  }

  lemma EffectKeepsTrace(owners: Owners, regime: Regime, w: World, step: Step)
    requires Concerns(step) && Enabled(owners, regime, w, step) && BookingOk(owners, w, step.b) && HomeOnly(w)
    ensures var e, p := EffectOf(owners, regime, w, step), w.plans[step.b];
            TraceOk(owners, p, e.trace) && (e.saga.Some? ==> PhaseOk(owners, p, e.trace, e.saga.value))
  {
    if IsOutside(step) {
      OutsideKeepsTrace(owners, regime, w, step);
    } else {
      ProcessKeepsTrace(owners, regime, w, step);
    }
  }

  // ---- Holdings of the booking that moves ----

  /** How an edit changes what segment `i` has. */
  lemma HeldAfter(owners: Owners, w: World, b: Id, e: Effect, i: nat)
    requires b in w.plans && i < |w.plans[b].segs|
    ensures var slot := SlotOf(w.plans[b].segs[i]);
            Held(owners, Moved(w, b, e), b, i) ==
              if OwnerOf(owners, slot.schema) != e.v then Held(owners, w, b, i)
              else (if slot.schema in ReleasedBy(w.dbs[e.v], b, e.edit) then 0 else Held(owners, w, b, i))
                   + Holding(AddedBy(b, e.edit), b, slot)
  {
    var slot, db := SlotOf(w.plans[b].segs[i]), w.dbs[e.v];
    EditShape(db, b, e.edit);
    HoldingSplits(Released(db.reservations, ReleasedBy(db, b, e.edit), b), AddedBy(b, e.edit), b, slot);
    HoldingAfterRelease(db.reservations, ReleasedBy(db, b, e.edit), b, b, slot);
  }

  lemma LandingIsOwed(owners: Owners, regime: Regime, w: World, b: Id, i: nat)
    requires Enabled(owners, regime, w, Land(b)) && BookingOk(owners, w, b) && SegmentsDiffer(w.plans[b].segs)
             && i < |w.plans[b].segs|
    ensures var e := EffectOf(owners, regime, w, Land(b));
            Held(owners, Moved(w, b, e), b, i) == if Owed(owners, w.plans[b], e.trace, i) then 1 else 0
  {
    var p, t := w.plans[b], w.traces[b];
    HeldAfter(owners, w, b, EffectOf(owners, regime, w, Land(b)), i);
    OneRow(b, SlotOf(p.segs[t.done]), SlotOf(p.segs[i]));
    if i != t.done { assert p.segs[i].segmentId != p.segs[t.done].segmentId; }
  }

  lemma SavingIsOwed(owners: Owners, regime: Regime, w: World, b: Id, i: nat)
    requires Enabled(owners, regime, w, Save(b)) && BookingOk(owners, w, b) && SegmentsDiffer(w.plans[b].segs)
             && i < |w.plans[b].segs|
    ensures var e := EffectOf(owners, regime, w, Save(b));
            Held(owners, Moved(w, b, e), b, i) == if Owed(owners, w.plans[b], e.trace, i) then 1 else 0
  {
    var p := w.plans[b];
    HeldAfter(owners, w, b, EffectOf(owners, regime, w, Save(b)), i);
    LocalIffOwner(owners, p.home, p.segs[i].region);
    RowsOfSegment(Topo(owners, p.home), b, p.segs, true, i);
  }

  lemma CancellingIsOwed(owners: Owners, regime: Regime, w: World, step: Step, i: nat)
    requires Concerns(step) && Enabled(owners, regime, w, step) && BookingOk(owners, w, step.b) && HomeOnly(w)
    requires step.CompensateHere? || step.ReleaseLands? || step.Correct?
    requires i < |w.plans[step.b].segs|
    ensures var e := EffectOf(owners, regime, w, step);
            Held(owners, Moved(w, step.b, e), step.b, i) == if Owed(owners, w.plans[step.b], e.trace, i) then 1 else 0
  {
    HeldAfter(owners, w, step.b, EffectOf(owners, regime, w, step), i);
    AllSchemas(w.plans[step.b].segs[i].region);
  }

  lemma SilentIsOwed(owners: Owners, regime: Regime, w: World, step: Step, i: nat)
    requires Concerns(step) && Enabled(owners, regime, w, step) && BookingOk(owners, w, step.b)
    requires !step.CompensateHere? && !step.ReleaseLands? && !step.Correct? && !step.Land? && !step.Save?
    requires i < |w.plans[step.b].segs|
    ensures var e := EffectOf(owners, regime, w, step);
            Held(owners, Moved(w, step.b, e), step.b, i) == if Owed(owners, w.plans[step.b], e.trace, i) then 1 else 0
  {
    HeldAfter(owners, w, step.b, EffectOf(owners, regime, w, step), i);
  }

  lemma EffectIsOwed(owners: Owners, regime: Regime, w: World, step: Step)
    requires Concerns(step) && Enabled(owners, regime, w, step) && BookingOk(owners, w, step.b) && HomeOnly(w)
             && Fits(w)
    ensures HoldsOwed(owners, Moved(w, step.b, EffectOf(owners, regime, w, step)), step.b)
  {
    forall i | 0 <= i < |w.plans[step.b].segs|
      ensures var e := EffectOf(owners, regime, w, step);
              Held(owners, Moved(w, step.b, e), step.b, i) == if Owed(owners, w.plans[step.b], e.trace, i) then 1 else 0
    {
      if step.Land? {
        LandingIsOwed(owners, regime, w, step.b, i);
      } else if step.Save? {
        SavingIsOwed(owners, regime, w, step.b, i);
      } else if step.CompensateHere? || step.ReleaseLands? || step.Correct? {
        CancellingIsOwed(owners, regime, w, step, i);
      } else {
        SilentIsOwed(owners, regime, w, step, i);
      }
    }
  }

  // ---- Every run ----

  lemma MovedStaysOk(owners: Owners, regime: Regime, w: World, step: Step, w': World)
    requires Sound(w) && Concerns(step) && Next(owners, regime, w, step, w') && BookingOk(owners, w, step.b)
    ensures BookingOk(owners, w', step.b)
  {
    EffectKeepsTrace(owners, regime, w, step);
    EffectIsOwed(owners, regime, w, step);
    EarlyIsUnbooked(owners, regime, w, step);
  }

  lemma EarlyIsUnbooked(owners: Owners, regime: Regime, w: World, step: Step)
    requires Concerns(step) && Enabled(owners, regime, w, step) && BookingOk(owners, w, step.b) && HomeOnly(w)
    ensures var e := EffectOf(owners, regime, w, step);
            e.saga.Some? && Early(e.saga.value) ==> step.b !in Moved(w, step.b, e).dbs[w.plans[step.b].home].bookings
  {}

  lemma UntouchedStaysOk(owners: Owners, w: World, w': World, c: Id)
    requires c in w.plans && c in w'.plans && w'.plans[c] == w.plans[c] && w'.traces[c] == w.traces[c]
    requires c in w'.sagas ==> c in w.sagas && w'.sagas[c] == w.sagas[c]
    requires forall v: Vm :: c in w'.dbs[v].bookings ==> c in w.dbs[v].bookings
    requires forall v: Vm, slot :: Holding(w'.dbs[v].reservations, c, slot) == Holding(w.dbs[v].reservations, c, slot)
    requires BookingOk(owners, w, c)
    ensures BookingOk(owners, w', c)
  {
    forall i | 0 <= i < |w.plans[c].segs|
      ensures Held(owners, w', c, i) == Held(owners, w, c, i)
    {}
  }

  lemma OtherStaysOk(owners: Owners, regime: Regime, w: World, step: Step, w': World, c: Id)
    requires Concerns(step) && Next(owners, regime, w, step, w') && c != step.b && c in w.plans
             && BookingOk(owners, w, c)
    ensures BookingOk(owners, w', c)
  {
    StepKeepsPlans(owners, regime, w, step, w');
    forall v: Vm
      ensures Elsewhere(w.dbs[v], w'.dbs[v], step.b)
    {
      StepIsLocal(owners, regime, w, step, w', v);
    }
    UntouchedStaysOk(owners, w, w', c);
  }

  lemma StartIsOk(owners: Owners, w: World, b: Id, plan: Plan)
    requires Sound(w) && b !in w.plans
    ensures BookingOk(owners, Started(w, b, plan), b)
  {
    forall i | 0 <= i < |plan.segs|
      ensures Held(owners, Started(w, b, plan), b, i) == 0
    {
      UnheardHoldsNothing(w.dbs[OwnerOf(owners, plan.segs[i].region)].reservations, b, SlotOf(plan.segs[i]));
    }
  }

  lemma IdleStaysOk(owners: Owners, regime: Regime, w: World, step: Step, w': World, c: Id)
    requires !Concerns(step) && Next(owners, regime, w, step, w') && c in w.plans && BookingOk(owners, w, c)
    ensures BookingOk(owners, w', c)
  {
    UntouchedStaysOk(owners, w, w', c);
  }

  lemma StepKeepsOk(owners: Owners, regime: Regime, w: World, step: Step, w': World, c: Id)
    requires Sound(w) && Next(owners, regime, w, step, w') && c in w'.plans
             && (c in w.plans ==> BookingOk(owners, w, c))
    ensures BookingOk(owners, w', c)
  {
    if step.Start? && step.b == c {
      StartIsOk(owners, w, c, step.plan);
    } else if !Concerns(step) {
      IdleStaysOk(owners, regime, w, step, w', c);
    } else if step.b == c {
      MovedStaysOk(owners, regime, w, step, w');
    } else {
      OtherStaysOk(owners, regime, w, step, w', c);
    }
  }

  /** Over every run, whatever crashes, gets lost or lands late: the trace of a booking, and while it runs its phase,
      determine what it has on both VMs, segment by segment. */
  lemma {:induction false} HoldingsAreExact(owners: Owners, regime: Regime, worlds: seq<World>, steps: seq<Step>,
                                            i: nat, b: Id)
    requires IsRun(owners, regime, worlds, steps) && i < |worlds| && b in worlds[i].plans
    ensures BookingOk(owners, worlds[i], b)
  {
    if i > 0 {
      if b in worlds[i - 1].plans { HoldingsAreExact(owners, regime, worlds, steps, i - 1, b); }
      RunIsSound(owners, regime, worlds, steps, i - 1);
      assert StepAt(owners, regime, worlds, steps, i - 1);
      StepKeepsOk(owners, regime, worlds[i - 1], steps[i - 1], worlds[i], b);
    }
  }

  // ---- What is left at the other VM ----

  /** The other VM has nothing of the booking. */
  ghost predicate PeerIsClear(owners: Owners, w: World, b: Id)
    requires b in w.plans
  {
    forall k :: 0 <= k < |w.plans[b].segs| && IsRemote(owners, w.plans[b], k) ==> Held(owners, w, b, k) == 0
  }

  /** Over every run, and in particular after every kind of ending: the other VM has nothing of a booking if and only if
      no remote segment was reserved or a release was run there, and no call of the saga has landed there since. */
  lemma PeerIsClearIff(owners: Owners, regime: Regime, worlds: seq<World>, steps: seq<Step>, i: nat, b: Id)
    requires IsRun(owners, regime, worlds, steps) && i < |worlds| && b in worlds[i].plans
    ensures var p, t := worlds[i].plans[b], worlds[i].traces[b];
            && t.done <= |p.segs|
            && (PeerIsClear(owners, worlds[i], b) <==>
                  (t.release.Applied? || !RemoteBefore(owners, p, t.done)) && t.call != Landed(true))
  {
    var w := worlds[i];
    var p, t := w.plans[b], w.traces[b];
    HoldingsAreExact(owners, regime, worlds, steps, i, b);
    if !(t.release.Applied? || !RemoteBefore(owners, p, t.done)) {
      var k :| 0 <= k < t.done && IsRemote(owners, p, k);
      assert Held(owners, w, b, k) == 1;
    }
    if t.call == Landed(true) { assert Held(owners, w, b, t.done) == 1; }
  }

  /** After a RegionUnavailableError no release is ever sent: the other VM keeps exactly the remote segments reserved
      before the failing call, and that call's own segment once it lands. */
  lemma RegionDownKeepsAll(owners: Owners, regime: Regime, worlds: seq<World>, steps: seq<Step>, i: nat, b: Id, k: nat)
    requires IsRun(owners, regime, worlds, steps) && i < |worlds| && b in worlds[i].plans && worlds[i].traces[b].down
    requires k < |worlds[i].plans[b].segs| && IsRemote(owners, worlds[i].plans[b], k)
    ensures var t := worlds[i].traces[b];
            && t.release.NotSent?
            && Held(owners, worlds[i], b, k) == if k < t.done || (k == t.done && t.call.Landed?) then 1 else 0
  {
    HoldingsAreExact(owners, regime, worlds, steps, i, b);
  }

  /** A release is sent exactly for a failure that is no RegionUnavailableError and follows a remote reservation. */
  lemma ReleaseIsSentIff(owners: Owners, regime: Regime, worlds: seq<World>, steps: seq<Step>, i: nat, b: Id)
    requires IsRun(owners, regime, worlds, steps) && i < |worlds| && b in worlds[i].sagas
             && worlds[i].sagas[b].Finishing?
    ensures var p, t := worlds[i].plans[b], worlds[i].traces[b];
            t.done <= |p.segs| && (!t.release.NotSent? <==> !t.down && RemoteBefore(owners, p, t.done))
  {
    HoldingsAreExact(owners, regime, worlds, steps, i, b);
  }

  /** The process of the saga is over, and `t` can only change by its last call landing. */
  ghost predicate Over(w: World, b: Id, t: Trace) {
    && b in w.plans && b !in w.sagas && w.traces[b].(call := NoCall, freed := {}) == t.(call := NoCall, freed := {})
    && (w.traces[b].call == t.call || (t.call.InFlight? && w.traces[b].call == Landed(true)))
  }

  lemma StepKeepsOver(owners: Owners, regime: Regime, w: World, step: Step, w': World, b: Id, t: Trace)
    requires Next(owners, regime, w, step, w') && Over(w, b, t) && !t.release.Sent?
    ensures Over(w', b, t)
  {
    StepKeepsPlans(owners, regime, w, step, w');
  }

  lemma {:induction false} RunKeepsOver(owners: Owners, regime: Regime, worlds: seq<World>, steps: seq<Step>, i: nat,
                                        j: nat, b: Id)
    requires IsRun(owners, regime, worlds, steps) && i <= j < |worlds|
    requires b in worlds[i].plans && b !in worlds[i].sagas && !worlds[i].traces[b].release.Sent?
    ensures Over(worlds[j], b, worlds[i].traces[b]) && worlds[j].plans[b] == worlds[i].plans[b]
    decreases j
  {
    if i < j {
      RunKeepsOver(owners, regime, worlds, steps, i, j - 1, b);
      assert StepAt(owners, regime, worlds, steps, j - 1);
      StepKeepsOver(owners, regime, worlds[j - 1], steps[j - 1], worlds[j], b, worlds[i].traces[b]);
      StepKeepsPlans(owners, regime, worlds[j - 1], steps[j - 1], worlds[j]);
    }
  }

  /** Once a saga is over, by return, refusal or crash, with no release in flight, what its booking has at the other VM
      never decreases: no pass of either reconciler, no cancellation and no later saga releases it. It grows only by a
      late landing. */
  lemma PeerRowsNeverShrink(owners: Owners, regime: Regime, worlds: seq<World>, steps: seq<Step>, i: nat, j: nat, b: Id,
                            k: nat)
    requires IsRun(owners, regime, worlds, steps) && i <= j < |worlds|
    requires b in worlds[i].plans && b !in worlds[i].sagas && !worlds[i].traces[b].release.Sent?
    requires k < |worlds[i].plans[b].segs| && IsRemote(owners, worlds[i].plans[b], k)
    ensures b in worlds[j].plans && worlds[j].plans[b] == worlds[i].plans[b]
    ensures Held(owners, worlds[i], b, k) <= Held(owners, worlds[j], b, k)
    ensures Held(owners, worlds[i], b, k) < Held(owners, worlds[j], b, k)
            ==> worlds[i].traces[b].call.InFlight? && k == worlds[i].traces[b].done
  {
    RunKeepsOver(owners, regime, worlds, steps, i, j, b);
    HoldingsAreExact(owners, regime, worlds, steps, i, b);
    HoldingsAreExact(owners, regime, worlds, steps, j, b);
  }

  // ---- Runs that leave something ----

  const TWO_STOPS: Plan := Plan(0, [Stop("S"), Stop("T")], 0, 0)

  /** A process dies right after its request ran at the peer: neither database knows the booking, and the peer keeps its
      row. */
  lemma CrashLeavesRow(regime: Regime) returns (worlds: seq<World>, steps: seq<Step>)
    ensures IsRun({}, regime, worlds, steps)
    ensures var w := worlds[|steps|];
            && w.plans == map[0 := ONE_STOP] && w.sagas == map[] && w.traces[0].release.NotSent?
            && w.dbs[0].bookings == map[] && w.dbs[1].bookings == map[] && Held({}, w, 0, 0) == 1
  {
    worlds, steps := Starts({}, regime, ONE_STOP);
    worlds, steps := Takes({}, regime, worlds, steps, Ask(0));
    worlds, steps := Takes({}, regime, worlds, steps, Land(0));
    var crashed := worlds[|steps|].(sagas := map[]);
    RunGoesOn({}, regime, worlds, steps, Crash(0), crashed);
    worlds, steps := worlds + [crashed], steps + [Crash(0)];
    HoldingsAreExact({}, regime, worlds, steps, |steps|, 0);
  }

  /** Two remote segments, the first reserved, the second asked for. */
  lemma AsksAgain(regime: Regime) returns (worlds: seq<World>, steps: seq<Step>)
    ensures IsRun({}, regime, worlds, steps)
    ensures var w := worlds[|steps|];
            && w.plans == map[0 := TWO_STOPS] && w.sagas == map[0 := Asking(true)] && w.dbs[0].bookings == map[]
            && w.traces == map[0 := Trace(1, InFlight, NotSent, false, {}, false)]
  {
    worlds, steps := Starts({}, regime, TWO_STOPS);
    worlds, steps := Takes({}, regime, worlds, steps, Ask(0));
    worlds, steps := Takes({}, regime, worlds, steps, Land(0));
    worlds, steps := Takes({}, regime, worlds, steps, Reply(0));
    worlds, steps := Takes({}, regime, worlds, steps, Ask(0));
  }

  /** The second call is lost, and the saga compensates as far as it does. */
  lemma LosesSecondCall(regime: Regime, unavailable: bool) returns (worlds: seq<World>, steps: seq<Step>)
    ensures IsRun({}, regime, worlds, steps)
    ensures var w := worlds[|steps|];
            && w.plans == map[0 := TWO_STOPS] && w.sagas == map[0 := Finishing] && w.dbs[0].bookings == map[]
            && w.traces == map[0 := Trace(1, InFlight, if unavailable then NotSent else Sent, false, {}, unavailable)]
  {
    worlds, steps := AsksAgain(regime);
    worlds, steps := Takes({}, regime, worlds, steps, LosePeer(0, unavailable));
    var none: set<Region> := {};
    assert none + none == none;
    worlds, steps := Takes({}, regime, worlds, steps, CompensateHere(0, none));
    worlds, steps := Takes({}, regime, worlds, steps, CompensateThere(0));
  }

  /** The second call ends in a RegionUnavailableError: the saga compensates, and returns a rejected booking, yet the
      peer keeps the first segment. */
  lemma RegionDownLeavesRow(regime: Regime) returns (worlds: seq<World>, steps: seq<Step>)
    ensures IsRun({}, regime, worlds, steps)
    ensures var w := worlds[|steps|];
            && w.plans == map[0 := TWO_STOPS] && w.sagas == map[] && w.traces[0].release.NotSent?
            && w.dbs[0].bookings == map[0 := Booking(0, Rejected, 0)] && Held({}, w, 0, 0) == 1
  {
    worlds, steps := LosesSecondCall(regime, true);
    worlds, steps := Takes({}, regime, worlds, steps, Reject(0));
    HoldingsAreExact({}, regime, worlds, steps, |steps|, 0);
  }

  lemma ReleasesFirst(regime: Regime) returns (worlds: seq<World>, steps: seq<Step>)
    ensures IsRun({}, regime, worlds, steps)
    ensures var w := worlds[|steps|];
            && w.plans == map[0 := TWO_STOPS] && w.sagas == map[]
                 && w.dbs[0].bookings == map[0 := Booking(0, Rejected, 0)]
            && w.traces == map[0 := Trace(1, InFlight, Applied, false, {}, false)]
  {
    worlds, steps := LosesSecondCall(regime, false);
    worlds, steps := Takes({}, regime, worlds, steps, ReleaseLands(0));
    worlds, steps := Takes({}, regime, worlds, steps, Reject(0));
  }

  /** The second call breaks off, the release is sent and run at the peer, and then the call lands after all. */
  lemma LateLandingLeavesRow(regime: Regime) returns (worlds: seq<World>, steps: seq<Step>)
    ensures IsRun({}, regime, worlds, steps)
    ensures var w := worlds[|steps|];
            && w.plans == map[0 := TWO_STOPS] && w.sagas == map[] && w.traces[0].release.Applied?
            && w.dbs[0].bookings == map[0 := Booking(0, Rejected, 0)] && Held({}, w, 0, 0) == 0
                 && Held({}, w, 0, 1) == 1
  {
    worlds, steps := ReleasesFirst(regime);
    worlds, steps := Takes({}, regime, worlds, steps, Land(0));
    HoldingsAreExact({}, regime, worlds, steps, |steps|, 0);
  }
}
