/** How full a slot can get when reserving transactions interleave: snapshots, own writes, commits, cancellations,
    crashes. */
module CapacityProtocol {
  import opened Basics
  import opened RoadGraph
  import opened Database

  /** A reserving transaction: its snapshot, its uncommitted rows, the slots its route asks for and those
      already tried. */
  datatype Txn = Txn(snapshot: seq<Reservation>, inserted: seq<Reservation>, plan: set<Slot>, tried: set<Slot>)

  datatype State = State(rows: seq<Reservation>, txns: map<nat, Txn>)

  datatype Step =
    | Begin(t: nat, plan: set<Slot>)
    | Reserve(t: nat, booking: Id, slot: Slot)
    | Commit(t: nat)
    | Abort(t: nat)
    | Cancel(booking: Id, schemas: set<Region>)

  function MaxOf(caps: Capacities, slot: Slot): nat {
    if (slot.schema, slot.segmentId) in caps then caps[(slot.schema, slot.segmentId)] else 0
  }

  /** What a reservation attempt does to its transaction. */
  function Tried(caps: Capacities, txn: Txn, b: Id, slot: Slot): Txn {
    var room := Booked(txn.snapshot + txn.inserted, Counted(slot)) < MaxOf(caps, slot);
    txn.(tried := txn.tried + {slot},
         inserted := if room then txn.inserted + [Reservation(b, slot, Confirmed)] else txn.inserted)
  }

  ghost predicate Next(caps: Capacities, s: State, step: Step, s': State) {
    match step
    case Begin(t, plan) =>
      && t !in s.txns && (forall slot :: slot in plan ==> Counted(slot) == slot)
      && s' == s.(txns := s.txns[t := Txn(s.rows, [], plan, {})])
    case Reserve(t, b, slot) =>
      && t in s.txns && slot in s.txns[t].plan && slot !in s.txns[t].tried
      && s' == s.(txns := s.txns[t := Tried(caps, s.txns[t], b, slot)])
    case Commit(t) =>
      && t in s.txns && s' == State(s.rows + s.txns[t].inserted, s.txns - {t})
    case Abort(t) =>
      && t in s.txns && s' == s.(txns := s.txns - {t})
    case Cancel(b, schemas) =>
      s' == s.(rows := Released(s.rows, schemas, b))
  }

  ghost predicate IsRun(caps: Capacities, states: seq<State>, steps: seq<Step>) {
    && |states| == |steps| + 1 && states[0].txns == map[]
    && forall i :: 0 <= i < |steps| ==> Next(caps, states[i], steps[i], states[i + 1])
  }

  /** Open transactions that ask for the slot and whose snapshot shows room in it. */
  ghost function Hopeful(caps: Capacities, s: State, slot: Slot): set<nat> {
    set t | t in s.txns && slot in s.txns[t].plan && Booked(s.txns[t].snapshot, slot) < MaxOf(caps, slot)
  }

  ghost predicate Overlap(caps: Capacities, states: seq<State>, slot: Slot, k: nat) {
    forall i :: 0 <= i < |states| ==> |Hopeful(caps, states[i], slot)| <= k
  }

  // ---- The invariant ----

  /** A transaction holds at most one row for a slot, and only if it asked for the slot and saw room. */
  ghost predicate TxnOk(caps: Capacities, txn: Txn, slot: Slot) {
    && (forall p :: p in txn.plan ==> Counted(p) == p)
    && Booked(txn.inserted, slot) <= (if slot in txn.tried && slot in txn.plan
         && Booked(txn.snapshot, slot) < MaxOf(caps, slot) then 1 else 0)
  }

  ghost predicate TxnsOk(caps: Capacities, s: State, slot: Slot) {
    forall t :: t in s.txns ==> TxnOk(caps, s.txns[t], slot)
  }

  ghost predicate Inv(caps: Capacities, s: State, slot: Slot, k: nat) {
    TxnsOk(caps, s, slot) && Booked(s.rows, slot) + |Hopeful(caps, s, slot)| <= MaxOf(caps, slot) + k - 1
  }

  lemma TriedIsOk(caps: Capacities, txn: Txn, b: Id, asked: Slot, slot: Slot)
    requires TxnOk(caps, txn, slot) && asked in txn.plan && asked !in txn.tried
    ensures TxnOk(caps, Tried(caps, txn, b, asked), slot)
  {
    BookedSplits(txn.snapshot, txn.inserted, asked);
    assert (txn.inserted + [Reservation(b, asked, Confirmed)])[..|txn.inserted|] == txn.inserted;
  }

  lemma TxnsStayOk(caps: Capacities, s: State, step: Step, s': State, slot: Slot)
    requires TxnsOk(caps, s, slot) && Next(caps, s, step, s')
    ensures TxnsOk(caps, s', slot)
  {
    if step.Reserve? { TriedIsOk(caps, s.txns[step.t], step.booking, step.slot, slot); }
  }

  lemma HopefulMoves(caps: Capacities, s: State, step: Step, s': State, slot: Slot)
    requires Next(caps, s, step, s')
    ensures var before, after := Hopeful(caps, s, slot), Hopeful(caps, s', slot);
            match step
            case Begin(t, _) => after == before || (after == before + {t} && Booked(s.rows, slot) < MaxOf(caps, slot))
            case Commit(t) => after == before - {t}
            case Abort(t) => after == before - {t}
            case _ => after == before
  {}

  /** Room is claimed by opening, used by committing, given back by aborting; nothing else moves the sum up. */
  lemma SumStaysBounded(caps: Capacities, s: State, step: Step, s': State, slot: Slot, k: nat)
    requires Inv(caps, s, slot, k) && Next(caps, s, step, s') && |Hopeful(caps, s', slot)| <= k
    ensures Booked(s'.rows, slot) + |Hopeful(caps, s', slot)| <= MaxOf(caps, slot) + k - 1
  {
    HopefulMoves(caps, s, step, s', slot);
    match step
    case Commit(t) =>
      assert TxnOk(caps, s.txns[t], slot);
      BookedSplits(s.rows, s.txns[t].inserted, slot);
    case Cancel(b, schemas) =>
      CancellingNeverAdds(s.rows, (r: Reservation) => r.booking == b && r.slot.schema in schemas, slot);
    case _ =>
  }

  lemma {:induction false} RunKeepsInv(caps: Capacities, states: seq<State>, steps: seq<Step>, slot: Slot, k: nat,
                                       i: nat)
    requires IsRun(caps, states, steps) && Overlap(caps, states, slot, k) && 1 <= k && i < |states|
    requires Booked(states[0].rows, slot) <= MaxOf(caps, slot)
    ensures Inv(caps, states[i], slot, k)
  {
    if i == 0 {
      assert Hopeful(caps, states[0], slot) == {};
    } else {
      RunKeepsInv(caps, states, steps, slot, k, i - 1);
      TxnsStayOk(caps, states[i - 1], steps[i - 1], states[i], slot);
      SumStaysBounded(caps, states[i - 1], steps[i - 1], states[i], slot, k);
    }
  }

  /** With at most k overlapping transactions that saw room, a slot is never overbooked by more than k - 1. */
  lemma OverbookingBound(caps: Capacities, states: seq<State>, steps: seq<Step>, slot: Slot, k: nat, i: nat)
    requires IsRun(caps, states, steps) && Overlap(caps, states, slot, k) && 1 <= k && i < |states|
    requires Booked(states[0].rows, slot) <= MaxOf(caps, slot)
    ensures Booked(states[i].rows, slot) <= MaxOf(caps, slot) + k - 1
  {
    RunKeepsInv(caps, states, steps, slot, k, i);
  }

  // ---- The same transactions as database sessions ----

  /** What `check_capacity` finds in the view of such a session is what the attempt goes by. */
  lemma SessionSeesRoom(caps: Capacities, txn: Txn, view: seq<Reservation>, b: Id, slot: Slot)
    requires view == txn.snapshot + txn.inserted
    ensures HasRoom(caps, view, slot) <==> |Tried(caps, txn, b, slot).inserted| == |txn.inserted| + 1
  {}

  /** A session that inserted these rows leaves, on its commit, exactly the table of this protocol's commit, whatever
      was committed since its snapshot. */
  lemma SessionCommits(caps: Capacities, s: State, t: nat, base: Db, view: Db, current: Db, b: Id, booking: Booking,
                       publicly: seq<Reservation>)
    requires t in s.txns && base.reservations == s.txns[t].snapshot && current.reservations == s.rows
    requires Extends(base, view) && Extends(base, current) && b !in current.bookings
    requires view == Db(base.bookings[b := booking], base.reservations + s.txns[t].inserted,
                        base.segmentRows + publicly)
    ensures !Clash(base, view, current)
    ensures Next(caps, s, Commit(t), State(Merged(base, view, current).reservations, s.txns - {t}))
  {
    MergeOfInserts(base, view, current, b, booking, s.txns[t].inserted, publicly);
  }

  // ---- The bound is tight ----

  /** No run with at most k overlapping transactions that saw room takes a slot more than `excess` over its capacity. */
  ghost predicate ExcessAtMost(k: nat, excess: nat) {
    forall caps: Capacities, states: seq<State>, steps: seq<Step>, slot: Slot, i: nat ::
      IsRun(caps, states, steps) && Overlap(caps, states, slot, k) && i < |states|
          && Booked(states[0].rows, slot) <= MaxOf(caps, slot)
      ==> Booked(states[i].rows, slot) <= MaxOf(caps, slot) + excess
  }

  const LAST_PLACE: Slot := Slot(Ireland, "S", 0)
  const ONE_PLACE: Capacities := map[(Ireland, "S") := 1]

  function Taken(b: Id): Reservation { Reservation(b, LAST_PLACE, Confirmed) }

  function Takers(n: nat): seq<Reservation> { seq(n, i requires 0 <= i => Taken(i)) }

  function Asking(): Txn { Txn([], [], {LAST_PLACE}, {}) }

  function Holder(b: Id): Txn { Txn([], [Taken(b)], {LAST_PLACE}, {LAST_PLACE}) }

  /** Transactions below `committed` are done, those below `reserved` hold the place, those below `begun` are open. */
  function Running(begun: nat, reserved: nat, committed: nat): (txns: map<nat, Txn>)
    ensures forall t :: t in txns <==> committed <= t < begun
    ensures forall t :: t in txns ==> txns[t] == if t < reserved then Holder(t) else Asking()
  {
    if begun <= committed then map[]
    else
      var last := begun - 1;
      Running(last, reserved, committed)[last := if last < reserved then Holder(last) else Asking()]
  }

  function Race(begun: nat, reserved: nat, committed: nat): State {
    State(Takers(committed), Running(begun, reserved, committed))
  }

  function Least(a: nat, b: nat): nat { if a < b then a else b }

  function After(n: int): nat { if n < 0 then 0 else n }

  /** k transactions begin, then each takes the last place, then each commits. */
  function RaceAt(k: nat, i: nat): State {
    Race(Least(i, k), Least(After(i - k), k), After(i - 2 * k))
  }

  function RaceStep(k: nat, i: nat): Step {
    if i < k then Begin(i, {LAST_PLACE}) else if i < 2 * k then Reserve(i - k, i - k, LAST_PLACE)
        else Commit(After(i - 2 * k))
  }

  lemma RaceBegins(begun: nat, reserved: nat)
    requires reserved <= begun
    ensures Next(ONE_PLACE, Race(begun, reserved, 0), Begin(begun, {LAST_PLACE}), Race(begun + 1, reserved, 0))
  {
    assert Counted(LAST_PLACE) == LAST_PLACE && Race(begun, reserved, 0).rows == [];
    assert Race(begun + 1, reserved, 0).txns == Race(begun, reserved, 0).txns[begun := Asking()];
  }

  lemma RaceReserves(begun: nat, reserved: nat)
    requires reserved < begun
    ensures Next(ONE_PLACE, Race(begun, reserved, 0), Reserve(reserved, reserved, LAST_PLACE),
                 Race(begun, reserved + 1, 0))
  {
    assert Counted(LAST_PLACE) == LAST_PLACE && Asking().snapshot + Asking().inserted == [];
    assert Tried(ONE_PLACE, Asking(), reserved, LAST_PLACE) == Holder(reserved);
    assert Race(begun, reserved + 1, 0).txns == Race(begun, reserved, 0).txns[reserved := Holder(reserved)];
  }

  lemma RaceCommits(begun: nat, committed: nat)
    requires committed < begun
    ensures Next(ONE_PLACE, Race(begun, begun, committed), Commit(committed), Race(begun, begun, committed + 1))
  {
    assert Takers(committed + 1) == Takers(committed) + [Taken(committed)];
    assert Race(begun, begun, committed + 1).txns == Race(begun, begun, committed).txns - {committed};
  }

  lemma RacePhases(k: nat, i: nat)
    ensures i <= k ==> RaceAt(k, i) == Race(i, 0, 0)
    ensures k <= i <= 2 * k ==> RaceAt(k, i) == Race(k, i - k, 0)
    ensures 2 * k <= i <= 3 * k ==> RaceAt(k, i) == Race(k, k, i - 2 * k)
  {}

  lemma RaceGoesOn(k: nat, i: nat)
    requires i < 3 * k
    ensures Next(ONE_PLACE, RaceAt(k, i), RaceStep(k, i), RaceAt(k, i + 1))
  {
    RacePhases(k, i);
    RacePhases(k, i + 1);
    if i < k {
      RaceBegins(i, 0);
    } else if i < 2 * k {
      RaceReserves(k, i - k);
    } else {
      RaceCommits(k, i - 2 * k);
    }
  }

  lemma {:induction false} NumbersBelow(s: set<nat>, k: nat)
    requires forall t :: t in s ==> t < k
    ensures |s| <= k
  {
    if k > 0 {
      NumbersBelow(s - {k - 1}, k - 1);
      assert s <= (s - {k - 1}) + {k - 1};
    } else {
      assert s == {};
    }
  }

  lemma {:induction false} EveryoneGotIn(k: nat)
    ensures Booked(Takers(k), LAST_PLACE) == k
  {
    if k > 0 {
      EveryoneGotIn(k - 1);
      assert Takers(k)[..k - 1] == Takers(k - 1);
    }
  }

  /** k sagas open their snapshots before any commits; each takes the last place, one lock hold after the other. */
  lemma RaceOverbooks(k: nat) returns (states: seq<State>, steps: seq<Step>)
    ensures IsRun(ONE_PLACE, states, steps) && |states| == 3 * k + 1 && Overlap(ONE_PLACE, states, LAST_PLACE, k)
    ensures states[0].rows == [] && Booked(states[3 * k].rows, LAST_PLACE) == k
  {
    states, steps := seq(3 * k + 1, i requires 0 <= i => RaceAt(k, i)), seq(3 * k, i requires 0 <= i => RaceStep(k, i));
    assert states[0] == State([], map[]);
    forall i | 0 <= i < 3 * k
      ensures Next(ONE_PLACE, states[i], steps[i], states[i + 1])
    {
      RaceGoesOn(k, i);
    }
    forall i | 0 <= i < |states|
      ensures |Hopeful(ONE_PLACE, states[i], LAST_PLACE)| <= k
    {
      NumbersBelow(Hopeful(ONE_PLACE, states[i], LAST_PLACE), k);
    }
    EveryoneGotIn(k);
  }

  /** The bound is exact for every k; in particular capacity is never exceeded precisely when no two transactions that
      saw room overlap. */
  lemma ExcessIffOverlap(k: nat, excess: nat)
    requires 1 <= k
    ensures ExcessAtMost(k, excess) <==> k - 1 <= excess
  {
    if k - 1 <= excess {
      forall caps: Capacities, states: seq<State>, steps: seq<Step>, slot: Slot, i: nat |
        IsRun(caps, states, steps) && Overlap(caps, states, slot, k) && i < |states|
            && Booked(states[0].rows, slot) <= MaxOf(caps, slot)
        ensures Booked(states[i].rows, slot) <= MaxOf(caps, slot) + excess
      {
        OverbookingBound(caps, states, steps, slot, k, i);
      }
    } else {
      var states, steps := RaceOverbooks(k);
      assert Booked(states[0].rows, LAST_PLACE) <= MaxOf(ONE_PLACE, LAST_PLACE);
      assert Booked(states[3 * k].rows, LAST_PLACE) > MaxOf(ONE_PLACE, LAST_PLACE) + excess;
    }
  }
}
