# Traffic booking: a verified model

The system books road journeys over two virtual machines. A journey is resolved to a chain of road segments, each with an
hour slot; a saga reserves one place per segment, in the local database for the regions a VM owns and over HTTP at the peer for
the others; a reconciler repairs what crashes and partitions leave behind; enforcement agents verify plates against a cache in
front of the bookings table; and user accounts are registered under a global email claim and replicated to the peer.

This project models that behaviour in Dafny, following the code branch by branch, and proves what it guarantees. Loops, classes
and in-place updates of the source are methods and classes proved against specification functions; what happens when many of them
interleave is a state machine whose steps are the source's commits and messages, and its theorems range over every run.

| file | models |
|---|---|
| `Basics`, `Rounding`, `RoadGraph`, `Dijkstra`, `Timetable` | adjacency lists, lazy-deletion Dijkstra, the walk back, hour slots |
| `SegmentLock` | the expiring token lock (`SET NX PX`, then `GET` and `DELETE` as two steps) |
| `Database` | one VM's tables, sessions under REPEATABLE READ, the three capacity operations |
| `CapacityProtocol`, `PeerProtocol` | interleaved reserving transactions, without and with the lock around the commit |
| `Saga` | one `create_booking` call from end to end, under every pattern of faults |
| `Reconciler` | the recovery pass, crash points inside it, cancellation |
| `BookingProtocol` | all sagas, requests in flight, both databases, both reconcilers, crashes |
| `Refinement` | the sequential call as an execution of that protocol |
| `Records`, `Holdings`, `Backing`, `Recovery`, `DanglingBookings` | what holds over every run of that protocol |
| `VerificationCache` | the plate cache, its event consumer, and the query behind it |
| `Registration`, `Replica`, `Mirroring` | registration on several nodes, the replication consumer, what each replica holds over every run |

## Main results

- **Route search.** `ShortestPath` returns a shortest chain if one exists and the empty list exactly if none does, with stale heap
  entries, an early exit, zero-length edges, self-loops and parallel edges; no node is expanded twice, at most `1 + 2|edges|` entries
  are pushed, and no segment repeats.
- **Capacity.** With at most k overlapping transactions that saw room, a slot is overbooked by at most k - 1, and for every k this
  excess is reached (`ExcessIffOverlap`). Peer reservations, which commit inside the lock, never overbook, exactly as long as
  lock holds stay within the expiry (`PeerCapacityIffHoldsAreShort`).
- **Saga and recovery.** A successful call holds every segment exactly once, at its owner; a failed one leaves exactly the rows stated in
  `CreateBooking`, and both are ends of runs of the protocol (`CallIsRun`). A reconciler pass may stop after any commit and be run again: it ends where one uninterrupted pass ends, and a
  further pass finds nothing (`CrashAndRunAgain`).
- **All runs of both VMs.** What a booking has on both VMs is known segment by segment in every reachable state, with requests that land
  late, lost replies and crashes anywhere (`HoldingsAreExact`); the other VM is clear of a booking exactly under a stated condition on
  what was reserved, released and landed (`PeerIsClearIff`), and what is left there once a saga is over never shrinks
  (`PeerRowsNeverShrink`). Confirmed bookings are fully reserved in every reachable state, exactly if sagas end within the orphan threshold and no booking is cancelled
  while its call still runs (`BackedIffPrompt`). In such runs a pass makes every booking of its VM all or nothing (`PassMakesAtomic`),
  and it strikes a confirmed booking exactly if its whole route is remote (`StruckIffAllRemote`).
- **Verification and registration.** Staleness of cached answers is bounded over every run; cached and queried decisions agree exactly
  under stated conditions. An email has one user exactly as long as claims never expire and no refresh fails after its commit
  (`OneUserIffClaimsLast`). Each node's replica mirrors the committed users it received exactly if what it received, skipped and took
  back fits their fates (`MirrorsIff`, `SettledMirrorsIff`), which holds whenever no publication overtakes a compensation and each node
  gets compensations with their registrations (`MirrorsUnlessOvertaken`).

## Where the code and its documents differ

The model follows the code in each case.

- `docs/consistency_model.md:25` relies on the lock to keep a snapshot's capacity check valid. A local saga takes its snapshot before
  it locks and commits after it unlocks, so k overlapping sagas can overbook by k - 1 (`RaceOverbooks`).
- `docs/failure_model.md:17` says that a booking stays committed without the broker. A failed publication of `booking.confirmed` raises
  inside the saga after its commit, so the booking ends REJECTED and its reservations are released, while its public segment rows stay
  CONFIRMED (`ExecuteBookingSaga`).
- `docs/failure_model.md:21` says that orphaned state is cleaned on both sides after a partition. Rows made at the peer have no booking
  row there, so no pass ever finds them (`PassFrame`, `PeerRowsNeverShrink`). The other VM is clear exactly if no remote segment was
  reserved or a release was run there, and no call has landed since (`PeerIsClearIff`). A crash (`CrashLeavesRow`), a region-unavailable
  failure, after which no release is sent (`RegionDownLeavesRow`, `RegionDownKeepsAll`), and a request that lands after the release
  (`LateLandingLeavesRow`) each leave a row for good.
- The orphan threshold is meant to keep the reconciler from racing with a live saga (`services/booking_service/reconciler.py:41-43`). A
  saga that stalls longer between its commit and its confirmation, or whose booking the driver cancels meanwhile, overwrites the
  repaired status with CONFIRMED (`StalledSagaConfirmsUnbacked`, `CancelledSagaConfirmsUnbacked`).
- Case A is meant for reservations lost in a partition, but tests the public rows, which are written for local segments only: it cancels
  every all-remote booking two minutes after it was made, and frees none of its peer rows (`StruckIffAllRemote`, `AllRemoteIsStruck`).
- The email claim is called permanent but expires after 24 hours (`services/auth_service/service.py:16`), after which the second line of
  defence, an exact-case lookup in the replica, can miss too (`ExpiredClaimIsTakenAgain`).
- `commit` and `refresh` share one `try` (`services/auth_service/service.py:63-66`). A refresh that fails after its commit leaves a
  committed user whose claim is given up and whose event is taken back (`LateFailureFreesTheEmail`, `CommittedUserIsTakenBack`).
- On a failed commit the claim is released before the compensating event is published. Another registration of the email can get its
  event in between; a consumer skips it, and the committed user never reaches its replica (`RetryOvertakesCompensation`). A failed
  publication of the first event keeps the email claimed although nobody has it (`RegisterUser`).
- The replica is described as a mirror of the peer's users (`services/auth_service/models.py:23`), but all nodes consume one queue
  (`services/auth_service/main.py:110-115`): each sees a share of the log, and if a registration and its compensation go to different
  nodes, one keeps a user whom nobody committed (`SplitQueueKeepsGhostUser`).

## Model

| member | source | states |
|---|---|---|
| `Rounding.RoundHalfEven` | services/booking_service/routing.py:47 | the result is a nearest integer, and an even one on a tie |
| `RoadGraph.NodeKey` | services/booking_service/routing.py:50-52 | a node's coordinates are within half of the fourth decimal of the point's |
| `RoadGraph.AddEdge` | services/booking_service/routing.py:100-108 | one more edge turns the graph and the positions of a list of edges into those of the longer list |
| `RoadGraph.BuildGraph` | services/booking_service/routing.py:91-110 | keys are exactly the endpoints, each entry lists its links in reading order, each position comes from the last touching edge |
| `RoadGraph.LinkIffJoins` | services/booking_service/routing.py:107-108 | an adjacency entry exists if and only if a known edge joins the two nodes, in either direction |
| `RoadGraph.DegreesBound` | services/booking_service/routing.py:143 | distinct nodes see at most two links per edge in all, self-loops and parallel edges included |
| `Dijkstra.HeapPop` | services/booking_service/routing.py:137 | an entry least by distance, then node, leaves the heap; everything else stays |
| `Dijkstra.PopFresh` | services/booking_service/routing.py:137-141 | a popped entry that is not stale names an unexpanded node at its final distance, and the frontier invariant survives its expansion |
| `Dijkstra.PopStale` | services/booking_service/routing.py:140-141 | dropping a stale entry keeps every unexpanded node covered by the heap |
| `Dijkstra.PopEnd` | services/booking_service/routing.py:138-139 | the early exit is sound: no unexpanded node is nearer than the end node when that surfaces |
| `Dijkstra.ChainCrossesFrontier` | services/booking_service/routing.py:136-148 | any chain to an unexpanded node meets an unexpanded reached node whose distance bounds the chain from below |
| `Dijkstra.NothingShorter` | services/booking_service/routing.py:136-151 | when the loop stops, the end's distance bounds every chain, and an unreached end has no chain |
| `Dijkstra.Expand` | services/booking_service/routing.py:143-148 | after the inner loop every link of the node is relaxed, expanded nodes keep their distances, and every entry pushed is accounted for |
| `Dijkstra.Search` | services/booking_service/routing.py:132-148 | the predecessors form a tree over the reached nodes; the entries pushed are those popped and those still in the heap, at most 1 + 2 times the number of edges; the expanded nodes are those popped at their final distance |
| `Dijkstra.WalkBack` | services/booking_service/routing.py:160-167 | the walk ends, even along zero-length edges, with a chain of distinct segments as long as the end's distance |
| `Dijkstra.AtOneNode` | services/booking_service/routing.py:153-158 | when both ends snap to one node, its shortest adjacent segment is the route |
| `Dijkstra.ShortestPath` | services/booking_service/routing.py:124-167 | a shortest chain if the end is reachable, the empty list if and only if it is not, no segment twice; no node is popped twice at its final distance |
| `Timetable.HourOf` | services/booking_service/routing.py:208 | the whole hour that holds the moment |
| `Timetable.ApproachMinutes` | services/booking_service/routing.py:196-200 | never negative, within half a minute of two minutes per three kilometres |
| `Timetable.NearestNode` | services/booking_service/routing.py:113-121 | a node whose position is at least distance from the point |
| `Timetable.ToMinutes` | services/booking_service/routing.py:46-47 | at least five minutes, and within half a minute of two per three kilometres or exactly five |
| `Timetable.Schedule` | services/booking_service/routing.py:202-228 | segment i carries id, region, length and end points of edge i, and the whole hour that holds its entry |
| `Timetable.EntriesAddUp` | services/booking_service/routing.py:203-227 | the first entry is the departure, and consecutive ones are apart by the reported duration of the segment between |
| `Timetable.ResolveRoute` | services/booking_service/routing.py:170-231 | not found exactly for an empty network or unconnected nodes, otherwise a shortest route between the nearest nodes, with id, region, length, end points and hour of each of its edges |
| `Timetable.FloorIsIdle` | services/booking_service/routing.py:230 | the lower bound of one minute never applies to a route |
| `Timetable.SlotsFollowTheClock` | services/booking_service/routing.py:206-228 | slots are whole hours that hold the entry moment, never go back, and are stable under flooring again |
| `Timetable.DrivingBounds` | services/booking_service/routing.py:46-47 | n segments over d kilometres take between 2d/3 - n/2 and 2d/3 + 5n minutes, and at least 5n |
| `Timetable.RouteNeverRepeats` | services/booking_service/routing.py:143-167 | with unique segment ids, one route asks for no (segment, slot) twice |
| `SegmentLock.LockStore.Acquire` | services/booking_service/distributed_lock.py:17-19 | succeeds exactly if no live token is stored, and then this token is, until the expiry |
| `SegmentLock.LockStore.StoredIsMine` | services/booking_service/distributed_lock.py:24-25 | tells whether the key still holds the caller's live token |
| `SegmentLock.LockStore.DeleteIf` | services/booking_service/distributed_lock.py:25-26 | removes the key after a matching read and nothing otherwise |
| `SegmentLock.StepKeepsInv` | services/booking_service/distributed_lock.py:15-26 | every step of every client keeps: whoever is between SET and DELETE owns the stored token |
| `SegmentLock.OverstayIsPossible` | services/booking_service/distributed_lock.py:17-22 | a hold allowed past the expiry puts two clients inside at once |
| `SegmentLock.ExclusiveIffHoldsAreShort` | services/booking_service/distributed_lock.py:10-26 | mutual exclusion in every run, if and only if holds must end within the expiry |
| `SegmentLock.NoReleaseStealsTheLock` | services/booking_service/distributed_lock.py:23-26 | over runs of such holds, every DELETE removes the deleter's own live token |
| `SegmentLock.LateDeleteSteals` | services/booking_service/distributed_lock.py:24-26 | a run in which a DELETE after the expiry, licensed by a GET before it, removes another client's token |
| `SegmentLock.HarmlessIffHoldsAreShort` | services/booking_service/distributed_lock.py:15-26 | no DELETE ever removes another client's live token, in all runs, if and only if holds end within the expiry |
| `Database.MergeAlone` | shared/database.py:25 | a session that nobody overtook commits exactly what it saw, without a clash |
| `Database.MergeLosesNothing` | shared/database.py:25 | without a clash, neither a row the session changed nor one that others changed is lost |
| `Database.MergeOfInserts` | shared/database.py:25 | a session that only inserted never clashes, and adds its booking and rows to whatever was committed meanwhile |
| `Database.Session.Begin` | shared/database.py:25 | the first statement fixes the snapshot; later ones keep it |
| `Database.Session.Commit` | shared/database.py:25 | refused exactly if somebody else changed a row that the session changed too; otherwise its changes are laid over the current database |
| `Database.HoldingAfterRelease` | services/booking_service/capacity.py:77-83 | a release takes all the booking has in those schemas and nothing of any other booking |
| `Database.Session.CheckCapacity` | services/booking_service/capacity.py:10-41 | in the session's view, the number of rows of the hour holding the departure that are neither cancelled nor rejected, or the missing segment |
| `Database.Session.ReserveSegment` | services/booking_service/capacity.py:44-74 | appends one row, or fails exactly if the foreign key finds no such segment |
| `Database.Session.ReleaseSegment` | services/booking_service/capacity.py:77-83 | row by row: those of the booking in that schema become cancelled, every other row stays |
| `Database.CancellingNeverAdds` | services/booking_service/capacity.py:77-83 | cancelling rows never raises a slot's count |
| `Database.BookedCounts` | services/booking_service/capacity.py:29-40 | the count is the number of rows of that segment and hour that are neither cancelled nor rejected |
| `Database.OneHeld` | services/booking_service/saga.py:141-160 | holding one place means one row of the booking for that region, segment and hour, confirmed, and no second active one |
| `CapacityProtocol.TriedIsOk` | services/booking_service/saga.py:131-160 | a transaction gains at most one row in a slot, and only if its snapshot showed room |
| `CapacityProtocol.SumStaysBounded` | services/booking_service/saga.py:131-197 | every step keeps active rows plus open transactions that saw room within max + k - 1 |
| `CapacityProtocol.OverbookingBound` | services/booking_service/saga.py:131-197 | over every run with at most k overlapping transactions that saw room, a slot holds at most max + k - 1 |
| `CapacityProtocol.SessionSeesRoom` | services/booking_service/capacity.py:29-41 | an attempt reserves exactly if the count in the session's view leaves room |
| `CapacityProtocol.SessionCommits` | services/booking_service/saga.py:197 | the commit of such a session, whatever was committed since its snapshot, is the commit of this protocol |
| `CapacityProtocol.RaceOverbooks` | services/booking_service/capacity.py:29-41 | for every k, a run in which k transactions all take the one place of a slot |
| `CapacityProtocol.ExcessIffOverlap` | services/booking_service/saga.py:131-197 | an excess is never passed in runs of overlap k if and only if it is at least k - 1, so capacity is strict exactly for k = 1 |
| `PeerProtocol.StepKeepsPeerInv` | services/booking_service/routes.py:152-170 | every step keeps: a transaction that saw room holds its slot's lock, and rows plus such transactions stay within max |
| `PeerProtocol.OverstayOverbooks` | services/booking_service/routes.py:152-170 | a request that outlasts its lock before its commit lets a second one overbook |
| `PeerProtocol.PeerCapacityIffHoldsAreShort` | services/booking_service/routes.py:152-170 | interleaved peer reservations, releases, corrections and crashes never overbook, if and only if holds end within the expiry |
| `Saga.PeerReserve` | services/booking_service/routes.py:138-175 | one row is committed exactly if the reply is 201, and that exactly if lock and database serve and the slot has room |
| `Saga.PeerRelease` | services/booking_service/routes.py:178-189 | all rows of the booking in all three schemas are cancelled, nothing else changes |
| `Saga.CallPeer` | services/booking_service/saga.py:33-63 | which outcome the saga sees, and whether the row landed although the reply was lost |
| `Saga.ReserveLocal` | services/booking_service/saga.py:131-160 | one regional and one public row, exactly if the lock is free, nothing fails and the session's view has room |
| `Saga.ReserveNext` | services/booking_service/saga.py:121-184 | the next segment is reserved at its owner exactly if it finds room there and no fault strikes |
| `Saga.ReserveRoute` | services/booking_service/saga.py:117-195 | stops at the first segment that finds a fault or no room, with exactly the earlier ones reserved |
| `Saga.CompensateLocal` | services/booking_service/saga.py:234-242 | all regional rows of the booking in this database are cancelled |
| `Saga.ExecuteBookingSaga` | services/booking_service/saga.py:117-263 | succeeds exactly if all segments are reserved and the event is taken, with both databases determined in every outcome, also when others committed since the snapshot |
| `Saga.SuccessHoldsEachSegmentOnce` | services/booking_service/saga.py:121-197 | after a success each segment has exactly one row for its own region, id and slot start, confirmed, at its owner and nowhere else, a local one also in public |
| `Saga.ReservedHourHoldsEntry` | services/booking_service/saga.py:141-150 | on a resolved route that row is for the edge of the path, in the whole hour during which the driver enters it |
| `Saga.CompensatesIff` | services/booking_service/saga.py:245-247 | a release is run if and only if the saga failed, it was delivered, an earlier segment is remote, and the peer was not unreachable |
| `Saga.PeerLeftovers` | services/booking_service/saga.py:234-248 | after a failure the peer has exactly the remote segments before the failing call, and that call's own segment if it landed, or none of them once released |
| `Saga.HomeLeftovers` | services/booking_service/saga.py:197-242 | at home a committed saga has exactly its local segments unless it released them, any other saga nothing |
| `Saga.OthersKeepTheirs` | services/booking_service/saga.py:117-248 | no outcome of a saga touches what another booking has on either VM |
| `Saga.RunSaga` | services/booking_service/service.py:55-70 | determines result, both databases, the rows of each segment in all three tables and whether a failed call landed, from inputs and faults; other bookings keep theirs |
| `Saga.CreateBooking` | services/booking_service/service.py:30-97 | ends CONFIRMED with exactly one row per segment at its owner, or REJECTED with the rows stated table by table; a region-unavailable failure leaves the peer its earlier segments, any other with a delivered release leaves nothing there; other bookings keep theirs |
| `Reconciler.OrphanFixed` | services/booking_service/reconciler.py:84-114 | correcting an orphan does not change where the pass must end |
| `Reconciler.DanglingFixed` | services/booking_service/reconciler.py:180-198 | cancelling a dangling booking does not change where the pass must end |
| `Reconciler.LingeringFixed` | services/booking_service/reconciler.py:232-242 | freeing a dead booking's rows does not change where the pass must end, nor what the earlier selections find |
| `Reconciler.CleanIffAtGoal` | services/booking_service/reconciler.py:252-258 | a pass finds nothing if and only if the database is its own goal |
| `Reconciler.ReconcileOrphanedSagas` | services/booking_service/reconciler.py:51-134 | counts and clears all orphans, wherever it is cut short keeps the goal, and leaves the other selections alone |
| `Reconciler.CancelDanglings` | services/booking_service/reconciler.py:160-217 | the same for confirmed bookings without a confirmed public row |
| `Reconciler.FreeLingering` | services/booking_service/reconciler.py:220-247 | the same for dead bookings with open rows in one schema |
| `Reconciler.FreeAllLingering` | services/booking_service/reconciler.py:219-247 | frees the dead bookings' rows in all three schemas and counts them exactly, or stops with the goal kept |
| `Reconciler.ReconcilePartitionInconsistencies` | services/booking_service/reconciler.py:137-249 | both cases in order, with their exact number of corrections |
| `Reconciler.RunReconciliationOnce` | services/booking_service/reconciler.py:252-258 | an uninterrupted pass reaches the goal and reports exactly its corrections; one cut short after any commit keeps the goal, and every row is as before or as in the goal |
| `Reconciler.CrashAndRunAgain` | services/booking_service/reconciler.py:252-258 | a pass stopped at any commit and run again ends where one pass ends, and a third reports nothing |
| `Reconciler.GoalIsStable` | services/booking_service/reconciler.py:252-258 | the goal of the goal is the goal, and holds no more work |
| `Reconciler.GoalSpelledOut` | services/booking_service/reconciler.py:59-247 | what a full pass makes of every booking by status, age in seconds and public rows, of every regional row and of every public row |
| `Reconciler.OnePassRecovers` | services/booking_service/reconciler.py:51-114 | once unfinished sagas are past the threshold, a pass leaves none, and no open row of a dead booking |
| `Reconciler.PassFrame` | services/booking_service/reconciler.py:59-171 | at no moment of a pass has a row been created or revived, nor a confirmed booking younger than two minutes or with a confirmed public row, a saga younger than one, or a booking of another database been touched |
| `Reconciler.CancelBooking` | services/booking_service/service.py:108-124 | only the driver's own booking becomes cancelled, every public row of it too, and no regional row, no other public row and no other booking changes |
| `Reconciler.ReleaseFreesItsOwn` | services/booking_service/capacity.py:77-83 | releasing a booking lowers each slot's count by exactly what the booking held |
| `Reconciler.CancelThenPassFreesExactlyTheBooking` | services/booking_service/service.py:108-124 | from a reconciled database, cancelling frees nothing by itself, and the next pass exactly that booking's rows |
| `BookingProtocol.StepIsLocal` | services/booking_service/saga.py:117-263 | a step of one booking changes no other booking's status or holdings in either database, and deletes no row |
| `BookingProtocol.RunIsSound` | services/booking_service/service.py:43-56 | over every run, a booking row is found only in the database of its home, and every reservation belongs to a started booking |
| `Records.SaveRecords` | services/booking_service/saga.py:141-160 | the commit leaves a regional and a public row for every local segment |
| `Records.LiveBookingsAreRecorded` | services/booking_service/service.py:55-97 | over every run with crashes and slow sagas, an unfinished or confirmed booking has its rows for every local segment |
| `Records.OnlyCallsConfirm` | services/booking_service/service.py:76-77 | over every run, the status CONFIRMED comes only from a call whose saga has returned |
| `Records.ConfirmingWritesConfirmed` | services/booking_service/service.py:76-77 | and such a call writes it |
| `Records.CallsEndDecided` | services/booking_service/service.py:76-97 | over every run, a call that does not crash has committed CONFIRMED or ends by committing REJECTED |
| `Refinement.ReservesUpTo` | services/booking_service/saga.py:121-195 | the loop over the route, as steps of the protocol |
| `Refinement.CallIsRun` | services/booking_service/service.py:30-97 | from every reachable world, each outcome that the contract of `CreateBooking` allows is the end of a run of the protocol |
| `Holdings.ProcessKeepsTrace` | services/booking_service/saga.py:117-263 | each step of a saga keeps its phase, `peer_reserved` included, in line with what was reserved, sent and committed |
| `Holdings.HoldingsAreExact` | services/booking_service/saga.py:117-263 | over every run, what a booking has of each segment on both VMs is one row or none as its history says, while its saga runs, after every kind of ending and after crashes |
| `Holdings.PeerIsClearIff` | services/booking_service/saga.py:244-248 | over every run, the other VM has nothing of a booking if and only if no remote segment was reserved or a release was run there, and no call landed since |
| `Holdings.RegionDownKeepsAll` | services/booking_service/saga.py:245 | after a region-unavailable failure no release is ever sent, and the peer keeps exactly the earlier remote segments and the call's own once it lands |
| `Holdings.ReleaseIsSentIff` | services/booking_service/saga.py:245-247 | a release is sent if and only if a remote segment was reserved and the failure is not a region-unavailable one |
| `Holdings.PeerRowsNeverShrink` | services/booking_service/routes.py:178-189 | once a saga is over with no release in flight, what the other VM has of its booking never decreases, and grows only by the landing of its last call |
| `Holdings.CrashLeavesRow` | services/booking_service/saga.py:172-180 | a run in which a crash leaves a row at the peer that neither bookings table knows |
| `Holdings.RegionDownLeavesRow` | services/booking_service/saga.py:245 | a run in which a rejected booking leaves its first segment at the peer, with no release sent |
| `Holdings.LateLandingLeavesRow` | services/booking_service/routes.py:152-170 | a run in which a timed-out call lands after the release and stays |
| `Backing.RunKeepsPromptInv` | services/booking_service/service.py:55-97 | over every prompt run, status and age of a running booking are known, and what a reconciler selected is no running saga, however late it is applied |
| `Backing.StalledSagaConfirmsUnbacked` | services/booking_service/reconciler.py:41-43 | past the threshold, a run ends with a confirmed booking that holds nothing |
| `Backing.CancelledSagaConfirmsUnbacked` | services/booking_service/service.py:76-77 | so does a run in which the driver cancels between the saga's commit and its confirmation |
| `Backing.BackedIffPrompt` | services/booking_service/service.py:55-97 | confirmed bookings hold every segment once in all runs, if and only if sagas are quicker than the threshold and not cancelled midway |
| `Recovery.HoldingAfterPass` | services/booking_service/reconciler.py:84-92 | cancelling by booking takes all a booking holds or nothing |
| `Recovery.PassMakesAtomic` | services/booking_service/reconciler.py:252-258 | over every prompt run with crashes anywhere, a pass past the threshold leaves each booking confirmed with every segment held once at its owner, or dead and holding nothing at home |
| `DanglingBookings.SavedRows` | services/booking_service/saga.py:151-160 | a saga commits public rows if and only if its route has a local segment |
| `DanglingBookings.RunKeepsPublic` | services/booking_service/reconciler.py:160-170 | over every prompt run, confirmed bookings that are not all remote keep a confirmed public row |
| `DanglingBookings.StruckIffAllRemote` | services/booking_service/reconciler.py:157-198 | over every prompt run, a fully reserved confirmed booking past the age limit is cancelled by the pass if and only if it is all remote |
| `DanglingBookings.AllRemoteIsStruck` | services/booking_service/reconciler.py:157-171 | a run that confirms an all-remote booking, holds its segment at the peer, and finds it dangling two minutes later |
| `VerificationCache.WholeSeconds` | services/verification_service/cache.py:44 | whole seconds, cut toward zero |
| `VerificationCache.ExpiryFor` | services/verification_service/cache.py:37-50 | an entry outlives its window by at most the grace period, or runs the default time if the window is over |
| `VerificationCache.Cache.CacheActiveBooking` | services/verification_service/cache.py:28-51 | stores the entry with that expiry and changes no other plate |
| `VerificationCache.Cache.GetCachedBooking` | services/verification_service/cache.py:54-62 | returns exactly a live entry |
| `VerificationCache.Cache.InvalidateBooking` | services/verification_service/cache.py:65-72 | removes the plate's entry only |
| `VerificationCache.Cache.HandleEvent` | services/verification_service/consumer.py:37-93 | a dropped event evicts exactly its plate, a confirmed one leaves there that booking with departure and window, a blank plate changes nothing, a null one raises |
| `VerificationCache.Cache.LookupDb` | services/verification_service/service.py:48-100 | the confirmed journey of the plate that departed last, within two hours, or none exactly if there is none, and warms the cache with it |
| `VerificationCache.Cache.VerifyPlate` | services/verification_service/service.py:103-152 | a live entry whose window lasts decides; otherwise the answer names a confirmed journey of the plate under way, or there is none, after an eviction |
| `VerificationCache.RunKeepsInv` | services/verification_service/consumer.py:55-67 | over every run, entries speak of published bookings of their own plate and expire between the end of their window and the later of the grace period after it and the default time from now |
| `VerificationCache.BoundedStaleness` | services/verification_service/service.py:103-143 | an authorised answer names a booking of that plate whose confirmation was published, at most two hours after its departure |
| `VerificationCache.DroppedIsRefused` | services/verification_service/consumer.py:81-83 | over every run, a check right after a dropped event of a plate without a confirmed journey under way is refused, whatever was cached |
| `VerificationCache.ConfirmedIsServed` | services/verification_service/consumer.py:55-67 | over every run, a check right after a confirmed event names that booking until its window ends, departed or not |
| `VerificationCache.CacheRefinesQuery` | services/verification_service/service.py:60-143 | for an entry whose booking is still confirmed and has departed, cached and queried decisions agree up to the window's last instant |
| `VerificationCache.AgreementIff` | services/verification_service/service.py:75-143 | on a hit they agree if and only if the entry's journey is still confirmed for the plate and has departed, or another journey of the plate is under way |
| `VerificationCache.MissAsksTheDatabase` | services/verification_service/service.py:113-143 | without a live entry inside its window the answer is the query's, and a second check gets the same booking from the cache |
| `Replica.ReplicaTable.HandleUserRegistered` | services/auth_service/main.py:47-66 | inserts unless id or email is taken; a database error leaves no trace |
| `Replica.ReplicaTable.HandleUserRegistrationFailed` | services/auth_service/main.py:69-85 | deletes the user with that id and no other; a database error leaves no trace |
| `Replica.ReplicaTable.HandleReplicationEvent` | services/auth_service/main.py:88-96 | routes each event to its handler, ignores unknown ones |
| `Replica.ReplicaTable.Consume` | shared/messaging.py:83-96 | redeliveries in place of one message count once, if any of them reached the database |
| `Replica.ReplicaTable.ConsumeAll` | services/auth_service/main.py:88-96 | consuming a log with any redeliveries in place and any database errors equals replaying once what got through |
| `Replica.ApplyTwice` | services/auth_service/main.py:61-80 | a message applied again changes nothing |
| `Replica.PresentIffInserted` | services/auth_service/main.py:52-63 | a skipped insert is never made up for, and a successful one lasts until it is taken back |
| `Replica.MirrorIffUnshadowed` | services/auth_service/main.py:47-96 | a replica equals the users its log stands for if and only if no standing registration met its email taken |
| `Registration.StepKeepsClaims` | services/auth_service/service.py:19-81 | every step of every node keeps: each email has one holder at most, and its claim is stored |
| `Registration.ExpiredClaimIsTakenAgain` | services/auth_service/service.py:16-24 | a run in which an expired claim gives an email two users |
| `Registration.LateFailureFreesTheEmail` | services/auth_service/service.py:63-70 | a run in which a refresh failing after its commit gives an email two users |
| `Registration.LowerIffSame` | services/auth_service/service.py:22 | two emails claim the same key if and only if they are equal up to the case of letters |
| `Registration.OneUserIffClaimsLast` | services/auth_service/service.py:19-81 | of emails equal up to the case of letters at most one is committed in all runs, if and only if claims do not expire and no refresh fails after its commit |
| `Registration.RunKeepsTablesUnique` | services/auth_service/models.py:14 | over every run, no node's own table has one email twice, letter for letter |
| `Registration.Deployment.RegisterUser` | services/auth_service/service.py:19-81 | when each outcome happens and what it leaves in the claims, the users and the log; an email equal to a committed one up to case is always refused, and only a late failure takes the claim of a committed user |
| `Mirroring.StepAccounts` | services/auth_service/service.py:59-79 | every step keeps: the log stands for exactly the published attempts and committed users that are not taken back |
| `Mirroring.StandsIffNoneTakenBack` | services/auth_service/service.py:59-79 | with settled attempts, the log stands for exactly the committed users if and only if none of them was taken back |
| `Mirroring.CommittedUserIsTakenBack` | services/auth_service/service.py:63-76 | a run with a late failure in which one is |
| `Mirroring.RunKeepsReplica` | shared/messaging.py:78-98 | over every run, each node's replica is its share of the one queue, replayed in order, redeliveries and lost traces included |
| `Mirroring.MirrorsIff` | services/auth_service/main.py:47-96 | over every run, a replica holds exactly the committed users it received if and only if each registration it received is committed exactly when it was inserted and not taken back there |
| `Mirroring.SettledMirrorsIff` | services/auth_service/main.py:47-96 | with settled attempts and no late failure, if and only if no committed user was skipped on arrival and no inserted one lacks a compensation that was due |
| `Mirroring.MirrorsUnlessOvertaken` | services/auth_service/service.py:59-79 | over every run with lasting claims in which no publication overtakes a compensation of its email, a node that applies compensations with their registrations skips nothing, and finally mirrors the committed users it received |
| `Mirroring.SplitQueueKeepsGhostUser` | services/auth_service/main.py:110-115 | a run in which registration and compensation go to different nodes and one keeps a user whom nobody committed |
| `Mirroring.RetryOvertakesCompensation` | services/auth_service/service.py:66-79 | a run without expiry or lost message after which a node that applied the whole log lacks a committed user |

## Left out

Parts of the system:

- Notifications, analytics, the gateway, rate limits, tokens, password hashes, request schemas, the frontend and deployment files.
- `preview_route`, `get_booking`, listing functions and health counters, which only read.
- `updated_at`, row ids, the estimated duration stored in a booking, driver ids in reservations, and all other columns no branch reads.
- Fresh uuids are parameters with the premise that they are new; clock readings, faults, broker and database failures are parameters or steps.

Where the model abstracts from the code:

- Coordinates and distances are reals and the haversine formula is an arbitrary non-negative function; floating-point error is not modelled.
- The order in which Python's `min` and dictionaries break ties between equally near nodes is left open, and so is the order of selected rows.
- Segment ids are assumed unique over the three regions, as uuids are; the sagas of `BookingProtocol` assume routes that `RouteNeverRepeats` allows.
- Session.Commit: the refusal of a concurrent update comes at the commit, while PostgreSQL raises it at the statement; an update that writes the value already there counts as no change. The steps of `BookingProtocol` update a row after anybody's commit, as each runs in a transaction of its own.
- A statement that fails inside a transaction appears as the database fault of that saga.
- One clock serves both VMs and all services, and `verify_plate` reads it once.
- Plates reach the cache in upper case and without blanks, as the routes and handlers make them; Redis evicting entries early appears as an eviction step.
- In `Saga` the compensations of one failed saga at its own VM succeed or fail together, and a request has run at the peer before its failure is handled or never runs; `BookingProtocol` has neither restriction.
- ExecuteBookingSaga: others may have committed between the snapshot and the call, but not during it; sagas that interleave are the subject of CapacityProtocol and BookingProtocol.
- CreateBooking: proved for a call that no other call overlaps, with the commit of the rejection succeeding; interleaved calls and crashes are the subject of BookingProtocol.
- BackedIffPrompt: whether a reservation of `BookingProtocol` finds room is left open; the counts that decide it are the subject of CapacityProtocol.
- PeerCapacityIffHoldsAreShort: slots asked for are whole hours, as every saga's are (`SlotsFollowTheClock`); the endpoint itself does not check that.
- OverbookingBound: a transaction asks for a slot at most once, as a route does (`RouteNeverRepeats`), and under whole-hour slots.
- MirrorsUnlessOvertaken: messages are handled in the order of the queue, with redelivery in place; a consumer that handles several messages at once, or a broker that puts a message back further down, is not modelled.
- The lower case of an email is modelled for the letters A to Z; other alphabets keep their characters.
- The replica lookup is exact-case, as in the code; a replica read, claim removal or publication that raises out of the call appears as the crash of that attempt.
- RegisterUser: the call is not overlapped by another one; interleaved calls are the subject of the state machine in the same module.
- CancelBooking and the reconciler's corrections publish events whose loss changes nothing in the database; those events appear only in VerificationCache.
