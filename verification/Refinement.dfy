/** The sequential `create_booking` call is an execution of the protocol: whatever the call leaves in the two databases,
    some run of the state machine that moves this booking alone leaves the same. */
module Refinement {
  import opened Basics
  import opened RoadGraph
  import opened Database
  import opened Saga
  import opened BookingProtocol
  import opened Holdings

  /** The call has reserved the first `n` segments and done nothing else to the world `w0` it started in. */
  ghost predicate Ahead(owners: Owners, w0: World, w: World, b: Id, p: Plan, n: nat) {
    && n <= |p.segs| && w.now == w0.now && w.picks == w0.picks
    && b in w.plans && w.plans[b] == p && b in w.sagas && w.sagas[b] == Reserving(RemoteBefore(owners, p, n))
    && w.traces[b] == Trace(n, NoCall, NotSent, false, {}, false)
    && w.dbs[p.home] == w0.dbs[p.home]
    && w.dbs[1 - p.home] == WithMore(w0.dbs[1 - p.home], Rows(Topo(owners, p.home), b, p.segs[..n], false))
  }

  function WithMore(db: Db, rows: seq<Reservation>): Db { db.(reservations := db.reservations + rows) }

  lemma AddsRemoteRow(owners: Owners, b: Id, p: Plan, n: nat, db: Db)
    requires n < |p.segs|
    ensures var topo := Topo(owners, p.home);
            WithMore(db, Rows(topo, b, p.segs[..n + 1], false))
              == if IsRemote(owners, p, n)
                 then WithMore(WithMore(db, Rows(topo, b, p.segs[..n], false)), [Row(b, SlotOf(p.segs[n]))])
                 else WithMore(db, Rows(topo, b, p.segs[..n], false))
  {
    RowsGrow(Topo(owners, p.home), b, p.segs, n, false);
    LocalIffOwner(owners, p.home, p.segs[n].region);
    var rows := Rows(Topo(owners, p.home), b, p.segs[..n], false);
    assert rows + [] == rows;
    assert db.reservations + (rows + [Row(b, SlotOf(p.segs[n]))])
        == db.reservations + rows + [Row(b, SlotOf(p.segs[n]))];
  }

  /** One call to the peer that runs there and is answered. */
  lemma AsksAndGets(owners: Owners, regime: Regime, w0: World, worlds: seq<World>, steps: seq<Step>, b: Id, p: Plan,
                    n: nat)
    returns (worlds': seq<World>, steps': seq<Step>)
    requires IsRun(owners, regime, worlds, steps) && Ahead(owners, w0, worlds[|steps|], b, p, n)
    requires n < |p.segs| && IsRemote(owners, p, n)
    ensures IsRun(owners, regime, worlds', steps') && Ahead(owners, w0, worlds'[|steps'|], b, p, n + 1)
  {
    AddsRemoteRow(owners, b, p, n, w0.dbs[1 - p.home]);
    OneMoreDone(owners, p, n);
    worlds', steps' := Takes(owners, regime, worlds, steps, Ask(b));
    worlds', steps' := Takes(owners, regime, worlds', steps', Land(b));
    worlds', steps' := Takes(owners, regime, worlds', steps', Reply(b));
  }

  lemma ReservesAtHome(owners: Owners, regime: Regime, w0: World, worlds: seq<World>, steps: seq<Step>, b: Id, p: Plan,
                       n: nat)
    returns (worlds': seq<World>, steps': seq<Step>)
    requires IsRun(owners, regime, worlds, steps) && Ahead(owners, w0, worlds[|steps|], b, p, n)
    requires n < |p.segs| && !IsRemote(owners, p, n)
    ensures IsRun(owners, regime, worlds', steps') && Ahead(owners, w0, worlds'[|steps'|], b, p, n + 1)
  {
    AddsRemoteRow(owners, b, p, n, w0.dbs[1 - p.home]);
    OneMoreDone(owners, p, n);
    worlds', steps' := Takes(owners, regime, worlds, steps, ReserveHere(b));
  }

  /** The loop over the route, up to segment `n`. */
  lemma {:induction false} ReservesUpTo(owners: Owners, regime: Regime, worlds: seq<World>, steps: seq<Step>, b: Id,
                                        p: Plan, n: nat)
    returns (worlds': seq<World>, steps': seq<Step>)
    requires IsRun(owners, regime, worlds, steps) && b !in worlds[|steps|].plans && p.startedAt == worlds[|steps|].now
    requires SegmentsDiffer(p.segs) && n <= |p.segs|
    ensures IsRun(owners, regime, worlds', steps') && Ahead(owners, worlds[|steps|], worlds'[|steps'|], b, p, n)
  {
    var w0 := worlds[|steps|];
    if n == 0 {
      RunGoesOn(owners, regime, worlds, steps, Start(b, p), Started(w0, b, p));
      worlds', steps' := worlds + [Started(w0, b, p)], steps + [Start(b, p)];
      assert WithMore(w0.dbs[1 - p.home], []).reservations == w0.dbs[1 - p.home].reservations;
    } else {
      worlds', steps' := ReservesUpTo(owners, regime, worlds, steps, b, p, n - 1);
      if IsRemote(owners, p, n - 1) {
        worlds', steps' := AsksAndGets(owners, regime, w0, worlds', steps', b, p, n - 1);
      } else {
        worlds', steps' := ReservesAtHome(owners, regime, w0, worlds', steps', b, p, n - 1);
      }
    }
  }

  function Ending(db: Db, b: Id, p: Plan, status: Status): Db {
    db.(bookings := db.bookings[b := BookingOf(p, status)])
  }

  /** A failed saga compensates at home in the given schemas, at the peer if `runs`, and rejects. */
  lemma CompensatesAndRejects(owners: Owners, regime: Regime, worlds: seq<World>, steps: seq<Step>, b: Id, p: Plan,
                              schemas: set<Region>, runs: bool)
    returns (worlds': seq<World>, steps': seq<Step>)
    requires IsRun(owners, regime, worlds, steps)
    requires var w := worlds[|steps|];
             && b in w.plans && w.plans[b] == p && b in w.sagas && w.sagas[b].Failed? && w.traces[b].release.NotSent?
             && (runs ==> w.sagas[b].peerReserved && !w.sagas[b].unavailable)
    ensures IsRun(owners, regime, worlds', steps')
    ensures var w, w' := worlds[|steps|], worlds'[|steps'|];
            && b !in w'.sagas
            && w'.dbs[p.home] == Ending(Edited(w.dbs[p.home], b, Free(schemas)), b, p, Rejected)
            && w'.dbs[1 - p.home] == if runs then Edited(w.dbs[1 - p.home], b, Free(ALL_SCHEMAS)) else w.dbs[1 - p.home]
  {
    worlds', steps' := Takes(owners, regime, worlds, steps, CompensateHere(b, schemas));
    worlds', steps' := Takes(owners, regime, worlds', steps', CompensateThere(b));
    if runs { worlds', steps' := Takes(owners, regime, worlds', steps', ReleaseLands(b)); }
    worlds', steps' := Takes(owners, regime, worlds', steps', Reject(b));
  }

  /** The route is reserved and committed; the event is published or not. */
  lemma SavesAll(owners: Owners, regime: Regime, w0: World, worlds: seq<World>, steps: seq<Step>, b: Id, p: Plan,
                 ok: bool)
    returns (worlds': seq<World>, steps': seq<Step>)
    requires IsRun(owners, regime, worlds, steps) && Ahead(owners, w0, worlds[|steps|], b, p, |p.segs|)
    ensures IsRun(owners, regime, worlds', steps')
    ensures var w, w' := worlds[|steps|], worlds'[|steps'|];
            && b in w'.plans && w'.plans[b] == p && b in w'.sagas && w'.traces[b].release.NotSent?
            && w'.sagas[b] == (if ok then Published else Failed(RemoteBefore(owners, p, |p.segs|), false))
            && w'.dbs[p.home] == HomeAfter(Topo(owners, p.home), w0.dbs[p.home], b, BookingOf(p, SagaInProgress),
                 p.segs, true, false)
            && w'.dbs[1 - p.home] == w.dbs[1 - p.home]
  {
    worlds', steps' := Takes(owners, regime, worlds, steps, Save(b));
    worlds', steps' := Takes(owners, regime, worlds', steps', Publish(b, ok));
  }

  /** How a failed call leaves the world. */
  ghost predicate FailedAt(owners: Owners, w: World, w': World, b: Id, p: Plan, n: nat, landed: bool, unavailable: bool)
    requires n < |p.segs|
  {
    && b in w'.plans && w'.plans[b] == p && b in w'.sagas && w'.traces[b].release.NotSent?
    && w'.sagas[b] == Failed(RemoteBefore(owners, p, n), unavailable)
    && w'.dbs[p.home] == w.dbs[p.home]
    && w'.dbs[1 - p.home]
         == if landed then WithMore(w.dbs[1 - p.home], [Row(b, SlotOf(p.segs[n]))]) else w.dbs[1 - p.home]
  }

  lemma AsksInVain(owners: Owners, regime: Regime, w0: World, worlds: seq<World>, steps: seq<Step>, b: Id, p: Plan,
                   n: nat, landed: bool)
    returns (worlds': seq<World>, steps': seq<Step>)
    requires IsRun(owners, regime, worlds, steps) && Ahead(owners, w0, worlds[|steps|], b, p, n) && n < |p.segs|
    requires IsRemote(owners, p, n)
    ensures IsRun(owners, regime, worlds', steps')
    ensures var w, w' := worlds[|steps|], worlds'[|steps'|];
            && b in w'.plans && w'.plans[b] == p && b in w'.sagas && w'.traces[b].release.NotSent?
            && w'.sagas[b] == Asking(RemoteBefore(owners, p, n)) && w'.dbs[p.home] == w.dbs[p.home]
            && w'.dbs[1 - p.home]
                 == if landed then WithMore(w.dbs[1 - p.home], [Row(b, SlotOf(p.segs[n]))]) else w.dbs[1 - p.home]
  {
    worlds', steps' := Takes(owners, regime, worlds, steps, Ask(b));
    if landed { worlds', steps' := Takes(owners, regime, worlds', steps', Land(b)); }
  }

  lemma FailsThere(owners: Owners, regime: Regime, w0: World, worlds: seq<World>, steps: seq<Step>, b: Id, p: Plan,
                   n: nat, landed: bool, unavailable: bool)
    returns (worlds': seq<World>, steps': seq<Step>)
    requires IsRun(owners, regime, worlds, steps) && Ahead(owners, w0, worlds[|steps|], b, p, n) && n < |p.segs|
    requires IsRemote(owners, p, n)
    ensures IsRun(owners, regime, worlds', steps')
    ensures FailedAt(owners, worlds[|steps|], worlds'[|steps'|], b, p, n, landed, unavailable)
  {
    worlds', steps' := AsksInVain(owners, regime, w0, worlds, steps, b, p, n, landed);
    worlds', steps' := Takes(owners, regime, worlds', steps', LosePeer(b, unavailable));
  }

  /** The call for segment `n` fails, at home or at the peer, where it has run or not. */
  lemma FailsAt(owners: Owners, regime: Regime, w0: World, worlds: seq<World>, steps: seq<Step>, b: Id, p: Plan, n: nat,
                landed: bool, unavailable: bool)
    returns (worlds': seq<World>, steps': seq<Step>)
    requires IsRun(owners, regime, worlds, steps) && Ahead(owners, w0, worlds[|steps|], b, p, n) && n < |p.segs|
    requires landed || unavailable ==> IsRemote(owners, p, n)
    ensures IsRun(owners, regime, worlds', steps')
    ensures FailedAt(owners, worlds[|steps|], worlds'[|steps'|], b, p, n, landed, unavailable)
  {
    if IsRemote(owners, p, n) {
      worlds', steps' := FailsThere(owners, regime, w0, worlds, steps, b, p, n, landed, unavailable);
    } else {
      worlds', steps' := Takes(owners, regime, worlds, steps, Fail(b));
    }
  }

  lemma PeerIs(owners: Owners, w0: World, b: Id, p: Plan, n: nat, landed: bool)
    requires n <= |p.segs| && (landed ==> n < |p.segs|)
    ensures var topo, db := Topo(owners, p.home), w0.dbs[1 - p.home];
            var reserved := WithMore(db, Rows(topo, b, p.segs[..n], false));
            && PeerAfter(topo, db, b, p.segs, n, landed, false)
               == (if landed then WithMore(reserved, [Row(b, SlotOf(p.segs[n]))]) else reserved)
            && PeerAfter(topo, db, b, p.segs, n, landed, true)
               == Edited(PeerAfter(topo, db, b, p.segs, n, landed, false), b, Free(ALL_SCHEMAS))
  {
    var rows := Rows(Topo(owners, p.home), b, p.segs[..n], false);
    assert w0.dbs[1 - p.home].reservations + rows + [] == w0.dbs[1 - p.home].reservations + rows;
  }

  /** What the call leaves, as `CreateBooking` states it. */
  ghost predicate CallLeaves(owners: Owners, w0: World, b: Id, p: Plan, faults: seq<Fault>, at: nat, landed: bool,
                             publishes: bool, releases: bool, delivers: bool, confirms: bool, home: Db, peer: Db)
    requires |faults| == |p.segs| && at <= |p.segs|
  {
    var topo, ok := Topo(owners, p.home), at == |p.segs| && publishes;
    && home == Ending(HomeAfter(topo, w0.dbs[p.home], b, BookingOf(p, SagaInProgress), p.segs, at == |p.segs|,
                                !publishes && releases), b, p, if ok && confirms then Confirmed else Rejected)
    && peer == PeerAfter(topo, w0.dbs[1 - p.home], b, p.segs, at, landed,
                         Compensates(topo, b, p.segs, faults, at, ok, delivers))
  }

  lemma CompensatesIfReserved(owners: Owners, b: Id, p: Plan, faults: seq<Fault>, at: nat, ok: bool, delivers: bool)
    requires |faults| == |p.segs| && at <= |p.segs|
    ensures Compensates(Topo(owners, p.home), b, p.segs, faults, at, ok, delivers) <==>
      !ok && delivers && RemoteBefore(owners, p, at) && !PeerDown(Topo(owners, p.home), p.segs, faults, at)
  {
    CompensatesIff(Topo(owners, p.home), b, p.segs, faults, at, ok, delivers);
    forall k | 0 <= k < |p.segs|
      ensures IsLocal(Topo(owners, p.home), p.segs[k].region) <==> !IsRemote(owners, p, k)
    {
      LocalIffOwner(owners, p.home, p.segs[k].region);
    }
  }

  lemma FailedCallIsRun(owners: Owners, regime: Regime, w0: World, worlds: seq<World>, steps: seq<Step>, b: Id, p: Plan,
                        faults: seq<Fault>, at: nat, landed: bool, releases: bool, publishes: bool, delivers: bool,
                        confirms: bool)
    returns (worlds': seq<World>, steps': seq<Step>)
    requires IsRun(owners, regime, worlds, steps) && Ahead(owners, w0, worlds[|steps|], b, p, at)
    requires |faults| == |p.segs| && at < |p.segs| && (landed ==> IsRemote(owners, p, at))
    ensures IsRun(owners, regime, worlds', steps') && b !in worlds'[|steps'|].sagas
    ensures CallLeaves(owners, w0, b, p, faults, at, landed, publishes, releases, delivers, confirms,
                       worlds'[|steps'|].dbs[p.home], worlds'[|steps'|].dbs[1 - p.home])
  {
    var unavailable := PeerDown(Topo(owners, p.home), p.segs, faults, at);
    var runs := Compensates(Topo(owners, p.home), b, p.segs, faults, at, false, delivers);
    LocalIffOwner(owners, p.home, p.segs[at].region);
    CompensatesIfReserved(owners, b, p, faults, at, false, delivers);
    PeerIs(owners, w0, b, p, at, landed);
    ReleasedFromNowhere(w0.dbs[p.home].reservations, b);
    worlds', steps' := FailsAt(owners, regime, w0, worlds, steps, b, p, at, landed, unavailable);
    worlds', steps' := CompensatesAndRejects(owners, regime, worlds', steps', b, p, {}, runs);
  }

  lemma PublishedCallIsRun(owners: Owners, regime: Regime, w0: World, worlds: seq<World>, steps: seq<Step>, b: Id,
                           p: Plan, faults: seq<Fault>, releases: bool, delivers: bool, confirms: bool)
    returns (worlds': seq<World>, steps': seq<Step>)
    requires IsRun(owners, regime, worlds, steps) && Ahead(owners, w0, worlds[|steps|], b, p, |p.segs|)
    requires |faults| == |p.segs|
    ensures IsRun(owners, regime, worlds', steps') && b !in worlds'[|steps'|].sagas
    ensures CallLeaves(owners, w0, b, p, faults, |p.segs|, false, true, releases, delivers, confirms,
                       worlds'[|steps'|].dbs[p.home], worlds'[|steps'|].dbs[1 - p.home])
  {
    CompensatesIfReserved(owners, b, p, faults, |p.segs|, true, delivers);
    PeerIs(owners, w0, b, p, |p.segs|, false);
    worlds', steps' := SavesAll(owners, regime, w0, worlds, steps, b, p, true);
    if confirms {
      worlds', steps' := Takes(owners, regime, worlds', steps', Confirm(b));
      worlds', steps' := Takes(owners, regime, worlds', steps', Return(b));
    } else {
      worlds', steps' := Takes(owners, regime, worlds', steps', RejectLate(b));
    }
  }

  lemma UnpublishedCallIsRun(owners: Owners, regime: Regime, w0: World, worlds: seq<World>, steps: seq<Step>, b: Id,
                             p: Plan, faults: seq<Fault>, releases: bool, delivers: bool, confirms: bool)
    returns (worlds': seq<World>, steps': seq<Step>)
    requires IsRun(owners, regime, worlds, steps) && Ahead(owners, w0, worlds[|steps|], b, p, |p.segs|)
    requires |faults| == |p.segs|
    ensures IsRun(owners, regime, worlds', steps') && b !in worlds'[|steps'|].sagas
    ensures CallLeaves(owners, w0, b, p, faults, |p.segs|, false, false, releases, delivers, confirms,
                       worlds'[|steps'|].dbs[p.home], worlds'[|steps'|].dbs[1 - p.home])
  {
    var runs := Compensates(Topo(owners, p.home), b, p.segs, faults, |p.segs|, false, delivers);
    CompensatesIfReserved(owners, b, p, faults, |p.segs|, false, delivers);
    PeerIs(owners, w0, b, p, |p.segs|, false);
    worlds', steps' := SavesAll(owners, regime, w0, worlds, steps, b, p, false);
    ReleasedFromNowhere(worlds'[|steps'|].dbs[p.home].reservations, b);
    worlds', steps' := CompensatesAndRejects(owners, regime, worlds', steps', b, p,
                                             if releases then ALL_SCHEMAS else {}, runs);
  }

  /** From every reachable world, every outcome that the contract of `CreateBooking` allows is the end of a run. */
  lemma CallIsRun(owners: Owners, regime: Regime, worlds: seq<World>, steps: seq<Step>, b: Id, p: Plan,
                  faults: seq<Fault>, at: nat, landed: bool, publishes: bool, releases: bool, delivers: bool,
                  confirms: bool)
    returns (worlds': seq<World>, steps': seq<Step>)
    requires IsRun(owners, regime, worlds, steps) && b !in worlds[|steps|].plans && p.startedAt == worlds[|steps|].now
    requires SegmentsDiffer(p.segs) && |faults| == |p.segs| && at <= |p.segs|
    requires landed ==> at < |p.segs| && !IsLocal(Topo(owners, p.home), p.segs[at].region)
    ensures IsRun(owners, regime, worlds', steps') && b !in worlds'[|steps'|].sagas
    ensures CallLeaves(owners, worlds[|steps|], b, p, faults, at, landed, publishes, releases, delivers, confirms,
                       worlds'[|steps'|].dbs[p.home], worlds'[|steps'|].dbs[1 - p.home])
  {
    worlds', steps' := ReservesUpTo(owners, regime, worlds, steps, b, p, at);
    if at < |p.segs| {
      LocalIffOwner(owners, p.home, p.segs[at].region);
      worlds', steps' := FailedCallIsRun(owners, regime, worlds[|steps|], worlds', steps', b, p, faults, at, landed,
                                         releases,
                                         publishes, delivers, confirms);
    } else if publishes {
      worlds', steps' := PublishedCallIsRun(owners, regime, worlds[|steps|], worlds', steps', b, p, faults, releases,
                                            delivers, confirms);
    } else {
      worlds', steps' := UnpublishedCallIsRun(owners, regime, worlds[|steps|], worlds', steps', b, p, faults, releases,
                                              delivers, confirms);
    }
  }
}
