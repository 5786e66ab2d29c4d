/** `peer_reserve`: snapshot, check, insert and commit all happen inside one lock hold. */
module PeerProtocol {
  import opened Basics
  import opened RoadGraph
  import opened Database
  import opened CapacityProtocol
  import L = SegmentLock

  /** The lock table and the database of one VM; a request is identified by its lock token. */
  datatype Peer = Peer(lock: L.State<Slot>, cap: State)

  datatype PeerStep =
    | Lock(step: L.Step<Slot>)
    | Snapshot(t: nat)
    | CheckAndInsert(t: nat, booking: Id)
    | CommitInside(t: nat)
    | Rollback(t: nat)
    | Free(booking: Id, schemas: set<Region>)

  ghost predicate InBody(s: Peer, t: nat) {
    t in s.lock.clients && !s.lock.clients[t].left
  }

  ghost predicate PeerNext(limit: int, caps: Capacities, s: Peer, step: PeerStep, s': Peer) {
    match step
    case Lock(ls) =>
      && L.Next(limit, s.lock, ls, s'.lock)
      // The body is left after its commit, after a rollback, or by the refusal of a full slot, whose session is closed
      // later.
      && (ls.Read? && ls.token in s.cap.txns ==>
            ls.token in s.lock.clients
            && MaxOf(caps, s.lock.clients[ls.token].key) <= Booked(s.cap.txns[ls.token].snapshot,
                 s.lock.clients[ls.token].key))
      && s'.cap == (if ls.Crash? then s.cap.(txns := s.cap.txns - {ls.token}) else s.cap)
    case Snapshot(t) =>
      InBody(s, t) && s'.lock == s.lock && Next(caps, s.cap, Begin(t, {s.lock.clients[t].key}), s'.cap)
    case CheckAndInsert(t, b) =>
      InBody(s, t) && s'.lock == s.lock && Next(caps, s.cap, Reserve(t, b, s.lock.clients[t].key), s'.cap)
    case CommitInside(t) =>
      InBody(s, t) && s'.lock == s.lock && Next(caps, s.cap, Commit(t), s'.cap)
    case Rollback(t) =>
      s'.lock == s.lock && Next(caps, s.cap, Abort(t), s'.cap)
    case Free(b, schemas) =>
      s'.lock == s.lock && Next(caps, s.cap, Cancel(b, schemas), s'.cap)
  }

  ghost predicate IsPeerRun(limit: int, caps: Capacities, states: seq<Peer>, steps: seq<PeerStep>) {
    && |states| == |steps| + 1 && states[0].lock == L.Init() && states[0].cap.txns == map[]
    && forall i :: 0 <= i < |steps| ==> PeerNext(limit, caps, states[i], steps[i], states[i + 1])
  }

  /** An open transaction that saw room is inside the body, under the lock of its slot. */
  ghost predicate Covered(caps: Capacities, s: Peer, slot: Slot) {
    forall t :: t in Hopeful(caps, s.cap, slot) ==> InBody(s, t) && s.lock.clients[t].key == slot
  }

  ghost predicate PeerInv(caps: Capacities, s: Peer, slot: Slot) {
    L.Inv(s.lock) && Covered(caps, s, slot) && Inv(caps, s.cap, slot, 1) && Matched(s)
  }

  /** An open transaction was started under the token of its request, for that request's slot only. */
  ghost predicate Matched(s: Peer) {
    forall t :: t in s.cap.txns ==>
            t < s.lock.issued && (t in s.lock.clients ==> s.cap.txns[t].plan == {s.lock.clients[t].key})
  }

  lemma AtMostOne(s: set<nat>)
    requires forall t, u :: t in s && u in s ==> t == u
    ensures |s| <= 1
  {
    if s != {} {
      var t :| t in s;
      assert s == {t};
    }
  }

  lemma CrashDropsHope(caps: Capacities, s: State, t: nat, slot: Slot)
    ensures Hopeful(caps, s.(txns := s.txns - {t}), slot) == Hopeful(caps, s, slot) - {t}
  {}

  lemma LockStepKeeps(limit: int, caps: Capacities, s: Peer, step: PeerStep, s': Peer, slot: Slot)
    requires limit <= L.LOCK_TIMEOUT_MS && PeerInv(caps, s, slot) && PeerNext(limit, caps, s, step, s') && step.Lock?
    ensures PeerInv(caps, s', slot)
  {
    L.StepKeepsInv(limit, s.lock, step.step, s'.lock);
    LockStepKeepsMatch(limit, caps, s, step, s');
    if step.step.Crash? { CrashDropsHope(caps, s.cap, step.step.token, slot); }
    LockStepKeepsCover(limit, caps, s, step, s', slot);
  }

  lemma LockStepKeepsMatch(limit: int, caps: Capacities, s: Peer, step: PeerStep, s': Peer)
    requires Matched(s) && PeerNext(limit, caps, s, step, s') && step.Lock?
    ensures Matched(s')
  {}

  lemma LockStepKeepsCover(limit: int, caps: Capacities, s: Peer, step: PeerStep, s': Peer, slot: Slot)
    requires Covered(caps, s, slot) && Matched(s) && PeerNext(limit, caps, s, step, s') && step.Lock?
    ensures Covered(caps, s', slot)
  {
    forall t | t in Hopeful(caps, s'.cap, slot)
      ensures InBody(s', t) && s'.lock.clients[t].key == slot
    {
      assert t in Hopeful(caps, s.cap, slot) && InBody(s, t) && t in s.cap.txns;
    }
  }

  /** The database step behind a step of the body. */
  ghost function Inner(s: Peer, step: PeerStep): Step
    requires !step.Lock? && !step.Free? && !step.Rollback? ==> InBody(s, step.t)
    requires !step.Lock?
  {
    match step
    case Snapshot(t) => Begin(t, {s.lock.clients[t].key})
    case CheckAndInsert(t, b) => Reserve(t, b, s.lock.clients[t].key)
    case CommitInside(t) => Commit(t)
    case Rollback(t) => Abort(t)
    case Free(b, schemas) => Cancel(b, schemas)
  }

  lemma DataStepKeepsCover(limit: int, caps: Capacities, s: Peer, step: PeerStep, s': Peer, slot: Slot)
    requires PeerInv(caps, s, slot) && PeerNext(limit, caps, s, step, s') && !step.Lock?
    ensures Covered(caps, s', slot)
  {
    HopefulMoves(caps, s.cap, Inner(s, step), s'.cap, slot);
    if step.Snapshot? && step.t in Hopeful(caps, s'.cap, slot) {
      assert s'.cap.txns[step.t].plan == {s.lock.clients[step.t].key};
    }
  }

  lemma StepKeepsPeerInv(limit: int, caps: Capacities, s: Peer, step: PeerStep, s': Peer, slot: Slot)
    requires limit <= L.LOCK_TIMEOUT_MS && PeerInv(caps, s, slot) && PeerNext(limit, caps, s, step, s')
    ensures PeerInv(caps, s', slot)
  {
    if step.Lock? {
      LockStepKeeps(limit, caps, s, step, s', slot);
    } else {
      DataStepKeepsCover(limit, caps, s, step, s', slot);
      L.SafeIsExclusive(s'.lock);
      AtMostOne(Hopeful(caps, s'.cap, slot));
      TxnsStayOk(caps, s.cap, Inner(s, step), s'.cap, slot);
      SumStaysBounded(caps, s.cap, Inner(s, step), s'.cap, slot, 1);
    }
  }

  lemma {:induction false} PeerRunKeepsInv(limit: int, caps: Capacities, states: seq<Peer>, steps: seq<PeerStep>,
                                           slot: Slot, i: nat)
    requires limit <= L.LOCK_TIMEOUT_MS && IsPeerRun(limit, caps, states, steps) && i < |states|
             && Booked(states[0].cap.rows, slot) <= MaxOf(caps, slot)
    ensures PeerInv(caps, states[i], slot)
  {
    if i == 0 {
      assert Hopeful(caps, states[0].cap, slot) == {};
    } else {
      PeerRunKeepsInv(limit, caps, states, steps, slot, i - 1);
      StepKeepsPeerInv(limit, caps, states[i - 1], steps[i - 1], states[i], slot);
    }
  }

  ghost predicate NeverOverbooked(limit: int) {
    forall caps: Capacities, states: seq<Peer>, steps: seq<PeerStep>, slot: Slot, i: nat ::
      IsPeerRun(limit, caps, states, steps) && i < |states| && Booked(states[0].cap.rows, slot) <= MaxOf(caps, slot)
      ==> Booked(states[i].cap.rows, slot) <= MaxOf(caps, slot)
  }

  lemma PeerRunGoesOn(limit: int, caps: Capacities, states: seq<Peer>, steps: seq<PeerStep>, step: PeerStep, s': Peer)
    requires IsPeerRun(limit, caps, states, steps) && PeerNext(limit, caps, states[|states| - 1], step, s')
    ensures IsPeerRun(limit, caps, states + [s'], steps + [step])
  {}

  /** A request that got into its body begins and takes the last place. */
  lemma TakesThePlace(limit: int, states: seq<Peer>, steps: seq<PeerStep>, lock: L.State<Slot>, t: nat)
    returns (states': seq<Peer>, steps': seq<PeerStep>)
    requires IsPeerRun(limit, ONE_PLACE, states, steps) && states[|states| - 1] == Peer(lock, Race(t, t, 0))
    requires InBody(Peer(lock, Race(t, t, 0)), t) && lock.clients[t].key == LAST_PLACE
    ensures IsPeerRun(limit, ONE_PLACE, states', steps') && states'[0] == states[0]
    ensures states'[|states'| - 1] == Peer(lock, Race(t + 1, t + 1, 0))
  {
    RaceBegins(t, t);
    PeerRunGoesOn(limit, ONE_PLACE, states, steps, Snapshot(t), Peer(lock, Race(t + 1, t, 0)));
    states', steps' := states + [Peer(lock, Race(t + 1, t, 0))], steps + [Snapshot(t)];
    RaceReserves(t + 1, t);
    PeerRunGoesOn(limit, ONE_PLACE, states', steps', CheckAndInsert(t, t), Peer(lock, Race(t + 1, t + 1, 0)));
    states', steps' := states' + [Peer(lock, Race(t + 1, t + 1, 0))], steps' + [CheckAndInsert(t, t)];
  }

  /** The first request outlasts its lock with the last place taken but not committed; a second one gets in and takes it
      too. */
  lemma OverstayOverbooks(limit: int) returns (states: seq<Peer>, steps: seq<PeerStep>)
    requires limit > L.LOCK_TIMEOUT_MS
    ensures IsPeerRun(limit, ONE_PLACE, states, steps) && states[0].cap.rows == []
    ensures Booked(states[|steps|].cap.rows, LAST_PLACE) == 2
  {
    var one, late, two := L.OneInside(LAST_PLACE), L.Expired(LAST_PLACE), L.TwoInside(LAST_PLACE);
    L.OverstayIsPossible(limit, LAST_PLACE);
    assert Race(0, 0, 0) == State([], map[]);
    states, steps := [Peer(L.Init(), Race(0, 0, 0)), Peer(one, Race(0, 0, 0))], [Lock(L.Enter(LAST_PLACE))];
    states, steps := TakesThePlace(limit, states, steps, one, 0);
    PeerRunGoesOn(limit, ONE_PLACE, states, steps, Lock(L.Tick(L.LOCK_TIMEOUT_MS as nat)), Peer(late, Race(1, 1, 0)));
    states, steps := states + [Peer(late, Race(1, 1, 0))], steps + [Lock(L.Tick(L.LOCK_TIMEOUT_MS as nat))];
    PeerRunGoesOn(limit, ONE_PLACE, states, steps, Lock(L.Enter(LAST_PLACE)), Peer(two, Race(1, 1, 0)));
    states, steps := states + [Peer(two, Race(1, 1, 0))], steps + [Lock(L.Enter(LAST_PLACE))];
    states, steps := TakesThePlace(limit, states, steps, two, 1);
    states, steps := BothCommit(limit, states, steps, two);
  }

  lemma BothCommit(limit: int, states: seq<Peer>, steps: seq<PeerStep>, lock: L.State<Slot>)
    returns (states': seq<Peer>, steps': seq<PeerStep>)
    requires IsPeerRun(limit, ONE_PLACE, states, steps) && states[|states| - 1] == Peer(lock, Race(2, 2, 0))
    requires InBody(Peer(lock, Race(2, 2, 0)), 0) && InBody(Peer(lock, Race(2, 2, 0)), 1)
    ensures IsPeerRun(limit, ONE_PLACE, states', steps') && states'[0] == states[0]
    ensures Booked(states'[|steps'|].cap.rows, LAST_PLACE) == 2
  {
    RaceCommits(2, 0);
    PeerRunGoesOn(limit, ONE_PLACE, states, steps, CommitInside(0), Peer(lock, Race(2, 2, 1)));
    states', steps' := states + [Peer(lock, Race(2, 2, 1))], steps + [CommitInside(0)];
    RaceCommits(2, 1);
    PeerRunGoesOn(limit, ONE_PLACE, states', steps', CommitInside(1), Peer(lock, Race(2, 2, 2)));
    states', steps' := states' + [Peer(lock, Race(2, 2, 2))], steps' + [CommitInside(1)];
    EveryoneGotIn(2);
  }

  /** However peer reservations, releases, reconciler corrections, refusals and crashes interleave, no slot is ever
      overbooked: exactly as long as every lock hold must end within the expiry. */
  lemma PeerCapacityIffHoldsAreShort(limit: int)
    ensures NeverOverbooked(limit) <==> limit <= 5000
  {
    if limit <= L.LOCK_TIMEOUT_MS {
      forall caps: Capacities, states: seq<Peer>, steps: seq<PeerStep>, slot: Slot, i: nat |
        IsPeerRun(limit, caps, states, steps) && i < |states| && Booked(states[0].cap.rows, slot) <= MaxOf(caps, slot)
        ensures Booked(states[i].cap.rows, slot) <= MaxOf(caps, slot)
      {
        PeerRunKeepsInv(limit, caps, states, steps, slot, i);
      }
    } else {
      var states, steps := OverstayOverbooks(limit);
      assert Booked(states[0].cap.rows, LAST_PLACE) <= MaxOf(ONE_PLACE, LAST_PLACE);
      assert Booked(states[|steps|].cap.rows, LAST_PLACE) > MaxOf(ONE_PLACE, LAST_PLACE);
    }
  }
}
