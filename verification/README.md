# Verified model of the ride-hailing core

This project models the coordination core of a ride-hailing backend and proves what it keeps: the lifecycle of a ride
among many invited drivers, the tracking of a trip, the fare, the payment of it, the live notification streams, the index
of driver positions, and the signup locks. `dafny verify dfyconfig.toml` checks all of it.

How the files fit together:

- `RideLifecycle` gives each service operation on a ride as a function from one ride (row, candidate rows, status
  history) to the next; `RideEffects` says what each of them writes and answers, `RideInvariants` what runs of them keep;
  `RidesManagement` is the class over the three tables, each method proved equal to its function. `ClaimDriver` looks at
  one operation statement by statement.
- `TripTracking` is the buffer of position reports as a class with its specification functions, `TripJournal` proves what
  the stored distances and summaries mean, `TripFlushRaces` and `TripListing` interleave recorders and the flusher
  command by command, the one for the event list, the other for the set of active rides.
  `InsertStatements` are the two statement builders of the flush. `RidesTracking` joins lifecycle, tracking and
  `FareEngine`.
- `PaymentStatuses` reads the provider's status texts, `PaymentStore` holds the three payment tables and the operations
  as one caller sees them, `PaymentEffects` says what these write, `PaymentProtocol` interleaves proceedings, queue
  workers and notifications statement by statement, `PaymentInvariants` proves what holds in every run,
  `PaymentStaleness` when stale copies undo finished work, and `PaymentRaces` that the uninterrupted operations are runs
  of the protocol and which runs break what does not hold.
- `ChannelProtocol` is one notification channel under all interleavings of connections, promise callbacks and Redis
  commands; `NotificationStream` is the adapter class, each method one protocol step on its channel.
- `DriverIndex` and `Geolocation` are the Redis position index, its sweep and the nearby query.
- `SignupLocks` interleaves any number of signups and has the lock loop as a class.

Some results differ from what one might expect of the program:

- **The gap at TRIP_STARTED.** A rider's cancellation, a rider's rejection and a withdrawal of the assigned driver all
  pass their guards while the trip is running (`RideInvariants.GapCallsAreReachable`).
  `RideInvariants.CoherentUnlessGapCall` shows that a run keeps status, driver and candidates in agreement if and only if
  it makes no such call. A ride that loses its driver this way can never be ended:
  `RideInvariants.CanBeEndedUnlessStranded` and `RideInvariants.StrandedExactlyByLosingTheDriver` give the exact
  conditions, and `RideInvariants.CanOrderAgainUnlessStranded` what it means for the rider.
- **History length.** The status history of a ride with n candidates has at most 3n + 4 entries, and some run reaches
  that.
- **PAID is not absorbing.** A proceeding writes ON_PROCESS without looking again.
  `PaymentInvariants.PaidIsLostExactlyWhenOvertaken` gives the exact condition, `PaymentRaces.PaidCanBeLost` a run.
- **Order ids change when two proceedings of one ride overlap**, exactly on the saves described by
  `PaymentInvariants.OrdersChangeExactlyOnLateSaves`; one proceeding at a time is enough to exclude them.
- **Stale copies.** A finished outbox row can be made to wait again and a settled detail can be marked failed by work
  that had begun earlier; `PaymentStaleness` says exactly when.
- **Lost trip events.** The flusher deletes before it persists. `TripFlushRaces.LossIsExact` says which events are lost
  and when, `TripFlushRaces.PushBeforeDelIsLost` shows that it happens, `TripFlushRaces.NothingLost` says when none is.
  The clean-up of a completed ride can also leave an event where the periodic flush does not look
  (`TripListing.OverlookedExactlyAfterBusyRemoval`).
- The repository's `README.md`, lines 198 to 200, describes one driver per ride; the code invites many, and the model
  follows the code. `claimDriver` throws on a claimed ride, so the recovery that `acceptRideByDriver` has for a claim
  that returned false is only reached when the update changed no row.

## Model

| member | source | states |
|---|---|---|
| RideInvariants.StepKeepsCoherent | src/rides/domain/services/rides-management.service.ts:195-592 | one call keeps status, driver and candidate statuses in agreement if and only if it is not one of the three calls that slip through during TRIP_STARTED |
| RideInvariants.CoherentUnlessGapCall | src/rides/domain/services/rides-management.service.ts:195-592 | over every run of calls on a new ride: the agreement holds at the end if and only if no such call was made on the way |
| RideInvariants.CanBeEndedUnlessStranded | src/rides/domain/services/rides-management.service.ts:207-227 | some calls bring a coherent or derailed ride to COMPLETED or CANCELED if and only if it is not at TRIP_STARTED without a driver |
| RideInvariants.StrandedExactlyByLosingTheDriver | src/rides/domain/services/rides-management.service.ts:371-592 | a run strands its ride if and only if some call in it takes the driver away during the trip: the rider's rejection, also after a cancellation that did not cancel, or a withdrawal of the driver whose candidate row is alive |
| RideInvariants.GapCallsAreReachable | src/rides/domain/services/rides-management.service.ts:195-592 | for every new ride and every invited driver the three calls that slip through can be made, and two of them strand the ride |
| RideInvariants.StrandedRiderIsRefusedForEver | src/rides/domain/services/rides-management.service.ts:91-98 | whatever happens in the whole system afterwards, the rider of a stranded ride is refused every new ride |
| RideInvariants.CanOrderAgainUnlessStranded | src/rides/domain/services/rides-management.service.ts:91-98 | in every reachable state of the system some events let a rider order again if and only if the rider holds no stranded ride |
| RideInvariants.TerminalIsFrozen | src/rides/domain/services/rides-management.service.ts:207-212 | COMPLETED and CANCELED are left by no call, and nothing of the ride changes any more |
| RideInvariants.BillingMeansCompletion | src/rides/domain/services/rides-tracking.service.ts:267-295 | a completion past its guards writes the bill and makes a coherent or derailed ride COMPLETED; any other completion changes nothing |
| RideInvariants.FareColumnsHaveTwoWriters | src/rides/domain/services/rides-tracking.service.ts:285-291 | the five fare columns are written by completions past their guards, and the final fare by cancellations of an unfinished ride, as zero; no other call touches any of them |
| RideInvariants.CandidatesOnlyMoveOn | src/rides/domain/services/rides-management.service.ts:289-360 | over any run nobody becomes INVITED again and a DECLINED or CANCELED candidate is never accepted or confirmed |
| RideInvariants.HistoryIsABoundedPath | src/rides/domain/services/rides-management.service.ts:598-633 | the history is always a connected path of permitted edges from null to the current status, of length at most 3n + 4 |
| RideInvariants.HistoryBoundIsTight | src/rides/domain/services/rides-management.service.ts:598-633 | for every list of n candidates some run has a history of exactly 3n + 4 entries |
| RideInvariants.RunsAreFinite | src/rides/domain/services/rides-management.service.ts:195-633 | in a run of any length at most 7n + 3 calls change status, driver or a candidate |
| RideInvariants.ReachableSystem | src/rides/infrastructure/repositories/ride.repository.ts:161-182 | in every reachable state of the whole system each rider has at most one unfinished ride, and every ride has its history as a path |
| RideInvariants.AdvanceKeepsOneUnfinishedEach | src/rides/domain/services/rides-management.service.ts:91-98 | creating a ride and every call on a ride keep at most one unfinished ride per rider |
| RideEffects.FreeRideIsTaken | src/rides/domain/services/rides-management.service.ts:324-360 | a live driver who accepts a ride that is free or his own becomes its driver; a ride looking for one goes to ACCEPTED with its history entries, a later one stays where it is |
| RideEffects.SecondDriverLoses | src/rides/domain/services/rides-management.service.ts:307-322 | a driver who accepts a ride of another one is answered Conflict, his row becomes CANCELED with the reason, and nothing else changes |
| RideEffects.AcceptanceIsRefused | src/rides/domain/services/rides-management.service.ts:273-305 | which acceptances change nothing, and how each of them is answered |
| RideEffects.DeclineIsRecorded | src/rides/domain/services/rides-management.service.ts:410-426 | a decline by a live driver stores DECLINED with the given or default reason in his row and in no other; only the assigned driver takes himself off the ride, which then looks for another from ACCEPTED or ASSIGNED |
| RideEffects.DeclineIsRefused | src/rides/domain/services/rides-management.service.ts:381-408 | which declines change nothing, and how each of them is answered |
| RideEffects.ConfirmationSettlesAll | src/rides/domain/services/rides-management.service.ts:479-513 | a confirmation makes the driver CONFIRMED, every other invited or accepted row CANCELED with the reason, keeps declined and cancelled rows, and makes the ride ENROUTE |
| RideEffects.ConfirmationIsRefused | src/rides/domain/services/rides-management.service.ts:438-477 | which confirmations change nothing, and how each of them is answered |
| RideEffects.RejectionReleasesDriver | src/rides/domain/services/rides-management.service.ts:567-582 | a rejection by the rider cancels the row of the driver with the reason, takes him off the ride, and from ACCEPTED reopens the search |
| RideEffects.RejectionIsRefused | src/rides/domain/services/rides-management.service.ts:531-565 | which rejections change nothing, and how each of them is answered |
| RideEffects.CancellationEndsRide | src/rides/domain/services/rides-management.service.ts:216-251 | which columns, rows and history entries a cancellation writes, before and during the trip, with a given, an empty and no reason |
| RideEffects.CancellationIsRefused | src/rides/domain/services/rides-management.service.ts:200-212 | which cancellations change nothing, and how each of them is answered |
| RideEffects.StartNeedsEverybody | src/rides/domain/services/rides-tracking.service.ts:46-134 | a start moves ENROUTE to TRIP_STARTED for the driver of the ride with everybody in place, and changes nothing in every other case |
| RideEffects.CompletionWritesBill | src/rides/domain/services/rides-tracking.service.ts:267-295 | a completion writes each amount of the bill to its own column, sets the payment PENDING, clears the link, and from ASSIGNED on completes the ride and closes its history |
| RideEffects.CompletionIsRefused | src/rides/domain/services/rides-tracking.service.ts:201-283 | a completion by somebody else, after the end, not in place or without a fare changes nothing and is answered accordingly |
| RideEffects.CreationInvitesNearby | src/rides/domain/services/rides-management.service.ts:124-144 | a new ride has its rider, no driver and no fare, and exactly the nearby drivers as INVITED rows; every other ride is as before |
| RideEffects.CreationIsRefused | src/rides/domain/services/rides-management.service.ts:91-122 | an unfinished ride of the rider, a missing route or nobody nearby: the tables stay as they are |
| RideEffects.CallsStayOnTheirRide | src/rides/domain/services/rides-management.service.ts:195-592 | a call on an unknown ride is NotFound, a call on a known one touches no other ride |
| RideEffects.OutForGood | src/rides/domain/services/rides-management.service.ts:289-295 | over every run: a driver whose row is DECLINED or CANCELED and who is not on the ride never gets it again, and his acceptance changes nothing and is not answered with success |
| RideEffects.PutOutForGood | src/rides/domain/services/rides-management.service.ts:289-592 | hence for a decline, a lost race, a rejection by the rider and the confirmation of somebody else: the driver is out over every later run |
| RidesManagement.RidesManagementService.CreateRide | src/rides/domain/services/rides-management.service.ts:83-183 | refused while the rider has an unfinished ride, without a route estimate or with nobody nearby; otherwise one new ride |
| RidesManagement.RidesManagementService.CreateRideWithDetails | src/rides/infrastructure/repositories/ride.repository.ts:238-396 | the ride, one INVITED row per nearby driver and two history entries appear together under a new id |
| RidesManagement.RidesManagementService.FindUnfinishedRideByRiderId | src/rides/infrastructure/repositories/ride.repository.ts:161-182 | finds a ride of the rider that is neither COMPLETED nor CANCELED if and only if there is one |
| RidesManagement.RidesManagementService.ClaimDriver | src/rides/infrastructure/repositories/ride.repository.ts:60-107 | sets the driver of an unclaimed ride and fails on a claimed one |
| RidesManagement.RidesManagementService.TransitionRideStatus | src/rides/domain/services/rides-management.service.ts:598-633 | changes the status and appends one history entry exactly when the current status is allowed and different |
| RidesManagement.RidesManagementService.UpdateRide | src/rides/infrastructure/repositories/ride.repository.ts:184-236 | replaces the row of one ride and nothing else |
| RidesManagement.RidesManagementService.RecordStatusChange | src/rides/domain/services/rides-management.service.ts:711-730 | appends one entry to the history of one ride |
| RidesManagement.RidesManagementService.AcceptRideByDriver | src/rides/domain/services/rides-management.service.ts:267-369 | the tables and the outcome after an acceptance, for every candidate status, driver and ride status |
| RidesManagement.RidesManagementService.RejectRideByDriver | src/rides/domain/services/rides-management.service.ts:371-432 | the tables and the outcome after a driver declines or withdraws, which `RideEffects.DeclineIsRecorded` and `RideEffects.DeclineIsRefused` spell out |
| RidesManagement.RidesManagementService.ConfirmDriverAcceptance | src/rides/domain/services/rides-management.service.ts:434-524 | the driver CONFIRMED, every live rival CANCELED, the ride ENROUTE, in that one call |
| RidesManagement.RidesManagementService.RejectDriverAcceptance | src/rides/domain/services/rides-management.service.ts:526-592 | the rider turns the accepted driver down and the search reopens |
| RidesManagement.RidesManagementService.CancelRide | src/rides/domain/services/rides-management.service.ts:195-265 | every candidate CANCELED with the reason, the fare zero, the status CANCELED where the transition allows it |
| RidesManagement.ConfirmedUpdates | src/rides/domain/services/rides-management.service.ts:488-513 | the rows the confirmation loop collects are exactly those it changes |
| RidesManagement.CanceledUpdates | src/rides/domain/services/rides-management.service.ts:236-251 | the rows the cancellation loop collects, written back, leave every candidate cancelled |
| ClaimDriver.ExactlyOneClaims | src/rides/infrastructure/repositories/ride.repository.ts:60-107 | of any number of interleaved claims on an unclaimed ride, as soon as one has been answered exactly one has claimed and the stored driver is its driver; everybody else who was answered was told "already claimed", whatever database errors occur |
| ClaimDriver.ErrorsComeFromTheDatabase | src/rides/infrastructure/repositories/ride.repository.ts:96-106 | over every interleaving a transaction ends with a database error only if the database failed it |
| ClaimDriver.SomebodyCanGoOn | src/rides/infrastructure/repositories/ride.repository.ts:66-97 | while a claim is unfinished, one of the claims can take a step that is no failure, over every interleaving |
| ClaimDriver.RunKeepsInv | src/rides/infrastructure/repositories/ride.repository.ts:66-92 | the row lock protects the read until the write, over every interleaving |
| TripJournal.DistanceIsAFold | src/rides/domain/services/trip-tracking.service.ts:87-149 | while a trip is tracked its stored total is the length of the driver's path; each row of trip_track has ride, client, role, position and time of its report, the path length up to it as total and the last leg as delta, and each buffered event likewise |
| TripJournal.ReportAddsItsLeg | src/rides/domain/services/trip-tracking.service.ts:96-122 | one report adds the leg from the driver's previous point, a rider's report adds nothing |
| TripJournal.TotalsNeverFall | src/rides/domain/services/trip-tracking.service.ts:96-122 | over every run the stored total of a ride only grows until its state is cleaned up or expires |
| TripJournal.TotalNeverFalls | src/rides/domain/services/trip-tracking.service.ts:96-122 | one step changes the total of a ride only by a report of its driver, and only upwards |
| TripJournal.SummaryIsLastPersisted | src/rides/infrastructure/repositories/trip-summary.repository.ts:22-72 | over every sequence of reports and flushes each summary row has client and position of the last stored report of its ride and role, for the driver the path length up to it as total, for the rider none; there is no other row |
| TripJournal.LastStoredAfterFlush | src/rides/domain/services/trip-tracking.service.ts:214-258 | the last event of a role in a flushed batch is the last one of that role in the table |
| TripJournal.BuffersAreListed | src/rides/domain/services/trip-tracking.service.ts:124-130 | every ride with buffered events is in the active set |
| TripJournal.FlushAllDrains | src/rides/domain/services/trip-tracking.service.ts:181-198 | a flush of all active rides, in any order, empties every buffer |
| TripJournal.FlushClearsCompletedRides | src/rides/domain/services/trip-tracking.service.ts:200-275 | a flush empties the buffer in any case, stores all events or none, removes every key of a completed ride exactly when its events are stored or there were none, and touches no other ride |
| TripJournal.CompletionIsQueuedOnce | src/rides/domain/services/trip-tracking.service.ts:167-179 | the first completion marks the state and queues one flush, a repeated one changes nothing |
| TripJournal.ReportOnlyBuffers | src/rides/domain/services/trip-tracking.service.ts:87-149 | a report is appended to the events of its ride and lists the ride; it stores, completes and queues nothing |
| TripTracking.TripTrackingService.RecordLocation | src/rides/domain/services/trip-tracking.service.ts:87-149 | the new tracking state, event list and active set after a report, and the two distances it returns |
| TripTracking.TripTrackingService.MarkRideCompleted | src/rides/domain/services/trip-tracking.service.ts:167-179 | the first call marks the state and queues one flush of the ride, later calls change nothing |
| TripTracking.TripTrackingService.Collect | src/rides/domain/services/trip-tracking.service.ts:214-254 | the loop yields one row per event, in order, and the latest summary of each role, whose columns `TripJournal.SummaryIsLastPersisted` gives |
| TripTracking.TripTrackingService.PersistFlush | src/rides/infrastructure/repositories/trip-track.repository.ts:19-57 | a fault at the insert, the upsert or the commit leaves both tables as before, otherwise all rows and summaries are stored |
| TripTracking.TripTrackingService.FlushRide | src/rides/domain/services/trip-tracking.service.ts:200-267 | the whole new state after a flush, whether its transaction commits or not; `TripJournal.SummaryIsLastPersisted`, `TripJournal.DistanceIsAFold` and `TripJournal.FlushClearsCompletedRides` say what that state contains |
| TripTracking.TripTrackingService.FlushAll | src/rides/domain/services/trip-tracking.service.ts:181-198 | every listed ride is flushed exactly once, whatever fails on the way |
| TripFlushRaces.EventAccounting | src/rides/domain/services/trip-tracking.service.ts:124-143 | for many recorders and one flusher interleaved command by command, each recorded event is in exactly one of persisted, in flight, waiting and lost; nothing is persisted twice; persisted order is recorded order |
| TripFlushRaces.LossIsExact | src/rides/domain/services/trip-tracking.service.ts:200-275 | a step loses an event if and only if the event was pushed between a read and the deletion that follows it, its batch's transaction failed, or its key expired |
| TripFlushRaces.NothingLost | src/rides/domain/services/trip-tracking.service.ts:200-267 | without these steps nothing is lost, and an idle flusher with an empty list has persisted everything |
| TripFlushRaces.PushBeforeDelIsLost | src/rides/domain/services/trip-tracking.service.ts:200-212 | in every reachable state with a flusher at rest and a non-empty list there is a run that loses the next event |
| TripFlushRaces.PushBeforeCleanupIsLost | src/rides/domain/services/trip-tracking.service.ts:204-210 | likewise between a look at the empty list of a completed ride and the clean-up |
| TripFlushRaces.CleanupFollowsFlush | src/rides/domain/services/trip-tracking.service.ts:260-275 | after a committed flush the key of a completed ride is deleted exactly when nothing was pushed in the meantime, of a ride under way never |
| TripListing.OverlookedExactlyAfterBusyRemoval | src/rides/domain/services/trip-tracking.service.ts:269-275 | command by command: at some point events stand in, or are about to reach, the list of a ride that no flush of the active rides sees, if and only if some clean-up takes the ride out of the set while recorders are at work |
| TripListing.EventsAreOverlooked | src/rides/domain/services/trip-tracking.service.ts:124-143 | a run in which this happens and no recorder is left to list the ride again |
| TripListing.OnlyCompletedRidesAreDelisted | src/rides/domain/services/trip-tracking.service.ts:204-210 | over every interleaving without a completion a listed ride stays listed |
| TripListing.CompletedRideSettles | src/rides/domain/services/trip-tracking.service.ts:200-275 | a completed ride with no recorder left is flushed and taken off the list |
| InsertStatements.BuildInsertManyStatement | src/rides/infrastructure/repositories/trip-track.repository.ts:59-99 | 8n parameters, and placeholder 8i + j + 1 binds field j of entry i |
| InsertStatements.BuildUpsertSummaries | src/rides/infrastructure/repositories/trip-summary.repository.ts:30-49 | 5n parameters, and placeholder 5i + j + 1 binds field j of summary i |
| InsertStatements.TrackRoundTrip | src/rides/infrastructure/repositories/trip-track.repository.ts:59-99 | decoding the rows bound by the flat array gives the entries back, for any list of entries |
| InsertStatements.SummaryRoundTrip | src/rides/infrastructure/repositories/trip-summary.repository.ts:30-49 | the same for summaries |
| RidesTracking.CompletedFareIsFareOfTravelledDistance | src/rides/domain/services/rides-tracking.service.ts:250-295 | end to end: a completed ride stores, to the cent, the fare, fee and discount of the kilometres its driver travelled including the final leg (metres through 1000), or without any of the distance on record, then of the estimate; the payment is PENDING without a link; otherwise nothing is written |
| RidesTracking.RidesTrackingService.StartRide | src/rides/domain/services/rides-tracking.service.ts:46-134 | the trip starts and the first position is recorded if and only if the driver of the ride calls at ENROUTE or TRIP_STARTED and the rider is known and all three distances are within the radius |
| RidesTracking.RidesTrackingService.RecordTripLocation | src/rides/domain/services/rides-tracking.service.ts:136-189 | who may report, and what is recorded |
| RidesTracking.RidesTrackingService.CompleteRide | src/rides/domain/services/rides-tracking.service.ts:191-307 | the ride tables and the tracking state after a completion; it succeeds if and only if the driver of an unfinished ride calls, the three distances are within the radius and the fare can be calculated |
| RidesTracking.RidesTrackingService.CheckTogether | src/rides/domain/services/rides-tracking.service.ts:309-342 | the three distance checks, and the refusal without a rider position |
| FareEngine.TotalIsExact | src/rides/domain/services/fare-engine.service.ts:33-52 | all amounts are whole cents, the total is exactly the discounted fare plus the fee, and discount plus discounted fare is within half a cent of the base fare |
| FareEngine.BaseFareIsDistanceTimesRate | src/rides/domain/services/fare-engine.service.ts:33-35 | the stored distance is in whole metres and within half a metre of the given one, the base fare is that distance times the rate, and zero for a negative distance |
| FareEngine.TotalIsNearDistanceTimesRate | src/rides/domain/services/fare-engine.service.ts:33-52 | the total is within (0.01 + 0.0005 rate)(1 + p/100) + 0.005 of distance times rate, minus the discount that counts, plus the fee of the branch taken |
| FareEngine.StoredDiscountIsNear | src/rides/domain/services/fare-engine.service.ts:67-98 | the stored discount is the given one to the cent, and zero on a fare that is not positive |
| FareEngine.StoredPercentIsNear | src/rides/domain/services/fare-engine.service.ts:100-112 | the stored percentage is that of the stored discount in the base fare to two digits, at most 100, and zero on a fare that is not positive |
| FareEngine.StoredFeeIsNear | src/rides/domain/services/fare-engine.service.ts:114-128 | the stored fee is the percentage of the discounted fare to the cent from the threshold on, the minimum fee below it |
| FareEngine.RefusedExactlyForBadDiscounts | src/rides/domain/services/fare-engine.service.ts:67-93 | a discount is refused as invalid exactly if it is negative, and as exceeding exactly if it is above the rounded distance times the rate, where that is positive; otherwise the fare is calculated |
| FareEngine.RefusalsHaveNoGaps | src/rides/domain/services/fare-engine.service.ts:74-98 | a discount refused for a shorter and for a longer trip is refused for every trip in between |
| FareEngine.TotalIsNearUnrounded | src/rides/domain/services/fare-engine.service.ts:33-52 | for every accepted calculation, with or without a discount, the total is within 0.01(1 + p/100) + 0.005 of the unrounded formula applied to the base fare on the fee branch taken; `FareEngine.TotalIsNearDistanceTimesRate` goes on to the distance |
| FareEngine.DiscountedFareIsNear | src/rides/domain/services/fare-engine.service.ts:67-98 | the discounted fare is within a cent of the base fare minus the discount that was given |
| FareEngine.PercentIsTheRoundedRatio | src/rides/domain/services/fare-engine.service.ts:100-112 | the discount percentage lies in 0 to 100, has two digits, and is within half a hundredth of the true ratio for every discount within the base fare |
| FareEngine.TotalGrowsWithDistance | src/rides/domain/services/fare-engine.service.ts:114-128 | for a fixed discount a longer trip costs no less on each side of the fee threshold, and crossing it drops the total by less than the minimum fee minus the rounded percentage at the threshold |
| FareEngine.AcceptedOnLongerTrips | src/rides/domain/services/fare-engine.service.ts:74-98 | a discount accepted for a trip is accepted for every longer one |
| FareEngine.CentsSurviveTheColumn | src/rides/domain/services/rides-tracking.service.ts:285-289 | formatting whole cents with two digits and reading them back is the identity |
| PaymentStatuses.ExactlyOneOutcome | src/rides/domain/services/payment.service.ts:433-476 | every status text falls in exactly one outcome class, the outbox update follows the class, and the absent update cannot arise; `PaymentStatuses.TextsDecideOutcome` names the texts of each class |
| PaymentStatuses.TextsDecideOutcome | src/rides/domain/services/payment.service.ts:400-431 | for every text in any mixture of cases: a success exactly for capture, settlement, success and completed, a final failure exactly for deny, cancel, cancelled, expired, expire, failure and failed, pending exactly for pending, authorize, authorized and challenge |
| PaymentStatuses.OutboxFollowsText | src/rides/domain/services/payment.service.ts:433-476 | the outbox status follows the text: completed for the four success texts, processing for the four pending ones, failed for every other or none |
| PaymentStatuses.FailureIsExplained | src/rides/domain/services/payment.service.ts:448-473 | the error noted for a text: none for success and pending, "Payment failed with status" and the text for a failure, "Payment resulted in status" and the name or "unknown" for the rest |
| PaymentStatuses.NormalizeReadsNames | src/rides/domain/services/payment.service.ts:388-398 | a status name in any mixture of cases reads as that status and any other text as UNKNOWN |
| PaymentStore.GrossAmountIsTheFare | src/rides/domain/services/payment.service.ts:293-310 | the amount asked for is the stored fare, for every fare in whole cents |
| PaymentStore.JobKeepsOrders | src/rides/domain/services/payment.service.ts:157-233 | all attempts of a job together keep every order id and request and touch no other ride |
| PaymentStore.JobOutcome | src/rides/domain/services/payment.service.ts:157-233 | with an answer the detail ends INITIATED with the token and link of the first answer and the row completed; without one both say failed and every attempt was counted |
| PaymentStore.InitiationOutcome | src/rides/domain/services/payment.service.ts:68-149 | a new request keeps the order and leaves the link of the first answer |
| PaymentStore.SettlingFollowsText | src/rides/infrastructure/repositories/ride-payment-detail.repository.ts:227-302 | what a notification commits, column by column: the ride PAID without a link exactly for the four success texts and untouched otherwise, the detail, the outbox rows of the order, and nothing else |
| PaymentEffects.StoredLinkIsReused | src/rides/domain/services/payment.service.ts:58-66 | a stored link is handed out again and nothing is written exactly when token and address are both there and not empty |
| PaymentEffects.NothingToHandOut | src/rides/domain/services/payment.service.ts:68-101 | no stored link and no positive fare, or a failing save: no link and no change |
| PaymentEffects.FirstAnswerIsHandedOut | src/rides/domain/services/payment.service.ts:110-149 | the address of the provider's first answer is handed out unless it is missing or empty |
| PaymentEffects.NoAnswerNoLink | src/rides/domain/services/payment.service.ts:110-149 | without any answer no link is handed out |
| PaymentEffects.RequestIsRecorded | src/rides/domain/services/payment.service.ts:68-109 | the detail is QUEUED with the ride's order or the new one, the fare as amount and no link, and one waiting outbox row with the same request and the job's id is added; nothing else changes |
| PaymentEffects.AttemptIsRecorded | src/rides/domain/services/payment.service.ts:157-233 | every column an attempt writes in the outbox row and the detail, answered or failed, and that nothing else changes |
| PaymentEffects.GrossAmountIsNear | src/rides/domain/services/payment.service.ts:293-310 | a fare not in whole cents is asked for within half a cent, and a missing one as zero |
| PaymentStore.PaymentTables.SaveOutbox | src/rides/infrastructure/repositories/payment-outbox.repository.ts:34-115 | an existing row keeps its ride and order, whatever the written copy says |
| PaymentStore.PaymentTables.SaveDetailAndOutbox | src/rides/infrastructure/repositories/payment-outbox.repository.ts:117-207 | detail and new outbox row are stored together, or a fault at any statement stores neither |
| PaymentStore.PaymentTables.SaveDetailWithRideUpdate | src/rides/infrastructure/repositories/ride-payment-detail.repository.ts:227-312 | detail, ride and all outbox rows of the order change together, or a fault, a missing ride or a missing row changes none |
| PaymentStore.PaymentTables.HandlePaymentNotification | src/rides/domain/services/rides-payment.service.ts:84-176 | the refusals; acceptance of every permitted notification about a known order unless a statement fails; on acceptance the ride that owns the order becomes PAID if and only if the lower-cased text is capture, settlement, success or completed, with the columns of detail and outbox rows spelled out; otherwise no change |
| PaymentStore.PaymentTables.ProcessOutbox | src/rides/domain/services/payment.service.ts:157-233 | the tables after one attempt of the worker, answered or failed |
| PaymentStore.PaymentTables.RunJob | src/rides/domain/services/payment.service.ts:96-109 | attempts stop at the first success, and the job succeeds if and only if one of them does |
| PaymentStore.PaymentTables.InitiatePayment | src/rides/domain/services/payment.service.ts:58-149 | for every input the whole new state and the answer: the stored link, or the link of the provider's first answer, or a refusal |
| PaymentStore.PaymentTables.ProceedRidePayment | src/rides/domain/services/rides-payment.service.ts:32-82 | each refusal in terms of the stored ride; for the rider of a completed unpaid ride exactly when a link is handed out and which, and the whole new state with ON_PROCESS and that link; a stored order id stays |
| PaymentInvariants.StepKeepsInv | src/rides/domain/services/payment.service.ts:58-233 | every single statement of every actor, working on stale copies, keeps the invariant of tables and copies unless it is a late save |
| PaymentInvariants.PaymentIdentity | src/rides/domain/services/payment.service.ts:61-92 | over every interleaving in which no proceeding saves a first request for a ride that has got a detail meanwhile: a stored order id never changes, no two rides share one, every outbox row of a ride carries it and asks for the ride's fare, and every stored order has an outbox row |
| PaymentInvariants.SerialPaymentIdentity | src/rides/domain/services/payment.service.ts:61-92 | the same over every interleaving in which the proceedings of one ride follow each other |
| PaymentInvariants.OrdersChangeExactlyOnLateSaves | src/rides/domain/services/payment.service.ts:61-92 | over every interleaving, serial or not: a stored order id changes if and only if some proceeding saves a request that it prepared before the ride had a detail, after the ride has got one |
| PaymentInvariants.SerialRunsAreTimely | src/rides/domain/services/rides-payment.service.ts:58-73 | when the proceedings of a ride follow each other no save is late |
| PaymentInvariants.NotificationFindsItsRows | src/rides/infrastructure/repositories/ride-payment-detail.repository.ts:273-302 | "Payment outbox entry not found" is never raised for a stored order |
| PaymentInvariants.StoredOrdersAreKnown | src/rides/domain/services/rides-payment.service.ts:104-123 | every stored order meets the condition under which a notification about it is accepted |
| PaymentInvariants.NotificationSettlesEverything | src/rides/domain/services/rides-payment.service.ts:125-161 | a committed notification brings the detail, the ride and every outbox row of the ride to the same verdict |
| PaymentInvariants.NotificationLeavesOthers | src/rides/domain/services/rides-payment.service.ts:141-161 | and leaves the rows of all other rides as they were |
| PaymentInvariants.PaidMeansSettled | src/rides/domain/services/rides-payment.service.ts:135-161 | without a late save, a ride that says PAID was settled by a successful notification for the order it still has |
| PaymentInvariants.PaidWasSettled | src/rides/domain/services/rides-payment.service.ts:135-161 | over every interleaving, a ride that says PAID had a successful notification committed |
| PaymentInvariants.PaidIsLostExactlyWhenOvertaken | src/rides/domain/services/rides-payment.service.ts:51-73 | over every interleaving, overlapping proceedings included: PAID is lost in a run if and only if a proceeding that was overtaken by a successful notification still writes ON_PROCESS |
| PaymentInvariants.PaidIsAbsorbingWhenQuiet | src/rides/domain/services/rides-payment.service.ts:51-73 | PAID is absorbing in every run in which no successful notification is committed while a proceeding of that ride is in flight |
| PaymentStaleness.RunKeepsSound | src/rides/infrastructure/repositories/payment-outbox.repository.ts:70-78 | over every interleaving, late saves included: every outbox row keeps its ride and order and belongs to a detail, and every order that is stored, copied or notified has a row |
| PaymentStaleness.FinishedRowIsUndoneExactlyByHolders | src/rides/domain/services/payment.service.ts:105-112 | in every reachable state, work that had already begun can take a finished outbox row back if and only if a proceeding before its post-enqueue save, an attempt, or an unfavourable notification still holds it |
| PaymentStaleness.SettledDetailIsUndoneExactlyByHolders | src/rides/domain/services/payment.service.ts:180-232 | in every reachable state, work that had already begun can overwrite a settled detail if and only if it includes an attempt for the ride, an unfavourable notification, or a proceeding that will still send a request |
| PaymentStaleness.FinishedRowCanBeReopened | src/rides/domain/services/payment.service.ts:105-112 | for every completed payable ride there is a run in which the post-enqueue save makes a finished row wait again with no attempt |
| PaymentStaleness.SettledDetailCanBeOverwritten | src/rides/domain/services/payment.service.ts:217-232 | for every completed payable ride there is a run in which a late failure writes FAILED over the detail of a paid ride |
| PaymentRaces.PaidCanBeLost | src/rides/domain/services/rides-payment.service.ts:67-73 | for every completed payable ride there is a run that makes it PAID and then not PAID, with the settlement on record |
| PaymentRaces.OverlapSplitsOrders | src/rides/domain/services/payment.service.ts:68-92 | for every completed payable ride two overlapping proceedings can leave two orders in the outbox, one of which no notification can reach |
| PaymentRaces.AttemptIsARun | src/rides/domain/services/payment.service.ts:157-233 | an uninterrupted attempt of a worker is one run of the interleaved protocol, with the same result as the method |
| PaymentRaces.ProceedingIsARun | src/rides/domain/services/rides-payment.service.ts:32-82 | an uninterrupted proceeding with its job, whatever the provider answers and whichever save fails, is one run of the interleaved protocol with the same tables as the method |
| ChannelProtocol.Convergence | src/gateway/app/services/notification-stream.adapter.ts:56-209 | under every interleaving, once nothing is pending the server's subscription equals the local record and is held only for listeners, and for all of them unless the latest attempt was refused |
| ChannelProtocol.RunKeepsInv | src/gateway/app/services/notification-stream.adapter.ts:147-209 | the relation between promise, deferred cleanups, commands under way and the server, over every interleaving |
| ChannelProtocol.PendingStepsMakeProgress | src/gateway/app/services/notification-stream.adapter.ts:147-209 | callbacks and answers use up what is pending |
| ChannelProtocol.Drain | src/gateway/app/services/notification-stream.adapter.ts:147-209 | from every reachable state a schedule of pending steps alone leads to rest |
| ChannelProtocol.ListenersAreTheOpenConnections | src/gateway/app/services/notification-stream.adapter.ts:56-89 | under every interleaving a connection is among the listeners of its channel if and only if its last step was a connect |
| ChannelProtocol.ConnectingAsksOnce | src/gateway/app/services/notification-stream.adapter.ts:147-174 | a connect sends SUBSCRIBE exactly when nothing is recorded and no promise is stored, also after a refusal |
| ChannelProtocol.LastOneOutUnsubscribes | src/gateway/app/services/notification-stream.adapter.ts:73-89 | only the last connection to go stops the subscription: at once if it is recorded, after the promise if one is stored |
| ChannelProtocol.CleanupsWaitForThePromise | src/gateway/app/services/notification-stream.adapter.ts:176-209 | a settled promise releases the cleanups that wait for it, a rejected one drops them, and a cleanup unsubscribes only if nobody listens |
| NotificationStream.KeysAreInjective | src/gateway/app/services/notification-stream.adapter.ts:246-248 | different recipients never share a channel key |
| NotificationStream.ChannelNames | src/gateway/app/services/notification-stream.adapter.ts:246-252 | the Redis channels of drivers, riders and one-time codes, by name |
| NotificationStream.ExtractInvertsRedisChannel | src/gateway/app/services/notification-stream.adapter.ts:250-279 | reading the key out of a Redis channel inverts naming it, and nothing else yields a key |
| NotificationStream.NotificationStreamAdapter.Subscribe | src/gateway/app/services/notification-stream.adapter.ts:56-70 | a connection is one protocol step on its channel, no other channel moves, and no key maps to an empty set |
| NotificationStream.NotificationStreamAdapter.Finalize | src/gateway/app/services/notification-stream.adapter.ts:73-89 | a disconnection likewise |
| NotificationStream.NotificationStreamAdapter.EnsureRedisSubscription | src/gateway/app/services/notification-stream.adapter.ts:147-174 | sends SUBSCRIBE once, unless subscribed or already under way |
| NotificationStream.NotificationStreamAdapter.CleanupRedisSubscription | src/gateway/app/services/notification-stream.adapter.ts:176-209 | defers to a pending promise, otherwise sends UNSUBSCRIBE once |
| NotificationStream.NotificationStreamAdapter.OnSubscribed | src/gateway/app/services/notification-stream.adapter.ts:157-161 | the fulfilled promise records the subscription |
| NotificationStream.NotificationStreamAdapter.OnSubscribeFailed | src/gateway/app/services/notification-stream.adapter.ts:162-168 | the rejected promise removes the record |
| NotificationStream.NotificationStreamAdapter.OnSettled | src/gateway/app/services/notification-stream.adapter.ts:169-171 | the promise goes away and the cleanups that waited for it become runnable |
| NotificationStream.NotificationStreamAdapter.RunDeferredCleanup | src/gateway/app/services/notification-stream.adapter.ts:182-197 | a deferred cleanup runs only if nobody has connected again |
| NotificationStream.NotificationStreamAdapter.HandleRedisMessage | src/gateway/app/services/notification-stream.adapter.ts:211-244 | a message reaches exactly the connections of its recipient |
| DriverIndex.StructuresAgree | src/location/domain/services/geolocation.repository.ts:75-101 | with stores, sweeps under any cutoffs and expiries interleaved, the geo set, the active set and the metadata hash keep the same keys, and a driver about to be evicted although no longer idle reported after the sweep had read its batch |
| DriverIndex.ReportIsWrittenEverywhere | src/location/domain/services/geolocation.repository.ts:75-101 | after a report the score is the time of the report, metadata and snapshot are those reported, the new entry is the only one of its driver, and everything of every other driver is as before |
| DriverIndex.CellOrderIsKept | src/location/domain/services/geolocation.repository.ts:77-83 | the geo set stays sorted by cell under reports and evictions |
| DriverIndex.ReportOutlivesSweep | src/location/domain/processors/maintenance.processor.ts:36-60 | a driver who reported after the cutoff keeps position, score, metadata and snapshot through the sweep |
| DriverIndex.SilenceIsEvicted | src/location/domain/processors/maintenance.processor.ts:36-60 | a driver whose last report is not after the cutoff is gone from all four structures |
| DriverIndex.EvictionRemovesExactlyTheStale | src/location/domain/processors/maintenance.processor.ts:36-60 | after a sweep nobody at or below the cutoff is left and everybody else has all their data |
| DriverIndex.EvictedInParts | src/location/domain/processors/maintenance.processor.ts:36-56 | evicting batch after batch is evicting their union at once |
| DriverIndex.EvictionIsObservationallySafe | src/location/domain/services/geolocation.repository.ts:114-188 | for a query cutoff later than the sweep's, the answer before an eviction is a prefix of the answer after it |
| DriverIndex.FilterTakePrefix | src/location/domain/services/geolocation.repository.ts:114-153 | filtering the first entries gives a prefix of taking the first of the filtered ones |
| DriverIndex.AnswerIsOrderedAndFresh | src/location/domain/services/geolocation.repository.ts:108-189 | the answer is within limit and radius, nearest first, recent drivers only, each with its own metadata |
| DriverIndex.NobodyIsOverlooked | src/location/domain/services/geolocation.repository.ts:114-188 | a recent driver within the radius is in the answer unless more than `limit` entries are no farther |
| DriverIndex.ReportIsFound | src/location/domain/services/geolocation.repository.ts:60-189 | a driver who has just reported within the radius is found where he reported and with what he reported, for every limit that is not below the size of the index |
| DriverIndex.AnswerIsDrawnFromTheIndex | src/location/domain/services/geolocation.repository.ts:184-229 | every line of the answer is an entry of the index with its own distance and coordinates, and nobody appears twice |
| Geolocation.GeolocationRepository.StoreDriverLocation | src/location/domain/services/geolocation.repository.ts:60-106 | one store updates all four structures for one driver, as `DriverIndex.ReportIsWrittenEverywhere` spells out, and keeps their keys in agreement |
| Geolocation.GeolocationRepository.CleanupIdleDrivers | src/location/domain/processors/maintenance.processor.ts:33-60 | the batch loop ends, early exit included, having removed all idle drivers and nobody else |
| Geolocation.GeolocationRepository.ZRangeByScore | src/location/domain/processors/maintenance.processor.ts:37-46 | a short batch is all there was |
| Geolocation.GeolocationRepository.BuildAnswer | src/location/domain/services/geolocation.repository.ts:127-188 | joining the positional score and metadata replies gives the specified answer |
| Geolocation.GeolocationRepository.CollectActive | src/location/domain/services/geolocation.repository.ts:131-153 | the ids kept are exactly the recent ones |
| Geolocation.GeolocationRepository.CollectMetadata | src/location/domain/services/geolocation.repository.ts:157-182 | each metadata value ends up under its own driver |
| SignupLocks.SignupsAreExclusive | src/iam/infrastructure/repository/driver-profile.repository.ts:93-163 | for any number of concurrent signups, any interleaving and any hash of lock keys, each phone number has at most one ACTIVE profile over both tables, and every lock held belongs to a running signup that took it |
| SignupLocks.ProfilesAreThoseOfSuccessfulSignups | src/iam/infrastructure/repository/driver-profile.repository.ts:129-145 | over every interleaving a profile is stored if and only if it was there before or a signup for it was told CREATED |
| SignupLocks.RefusedExactlyForCause | src/iam/infrastructure/repository/driver-profile.repository.ts:93-125 | a signup is refused exactly when another session holds the lock it asks for next, named in full, or one of the two tables has the number; it errs exactly when something fails |
| SignupLocks.UncontendedSignupSucceeds | src/iam/infrastructure/repository/driver-profile.repository.ts:100-163 | a signup whose locks nobody else holds and whose number is free can always be brought to success |
| SignupLocks.HoldersAreEqual | src/iam/infrastructure/repository/rider-profile.repository.ts:83-88 | two signups that hold the locks of one phone number are the same signup |
| SignupLocks.CommitKeepsInv | src/client/domain/services/client.service.ts:74-112 | what one signup checked still holds when it commits |
| SignupLocks.SignupDesk.EnsureMsisdnExclusivity | src/client/domain/services/client.service.ts:74-112 | free if and only if neither table has an ACTIVE profile of the number |
| SignupLocks.SignupDesk.TakeLocks | src/iam/infrastructure/repository/driver-profile.repository.ts:112-125 | the loop holds exactly the prefix of the keys it acquired, each as often as it took it |
| SignupLocks.SignupDesk.GiveLocksBack | src/iam/infrastructure/repository/driver-profile.repository.ts:147-153 | the reverse loop restores the lock table exactly |
| SignupLocks.SignupDesk.ExecuteWithSignupLock | src/iam/infrastructure/repository/driver-profile.repository.ts:100-163 | every exit path leaves the lock table as it was, and a profile is added exactly when the result says so |

## Left out

- Granularity of the lifecycle: each call on a ride is one atomic step, although `updateRide` rewrites the row from an earlier read; only the claim is interleaved. The check and the insert of `createRide` are one step too, so two simultaneous creations by one rider are not covered, nor is a payment between the two row updates of a completion.
- RidesManagement.RidesManagementService.UpdateRide: does not model the merge of partial rows, because every caller passes a complete row.
- TripFlushRaces.EventAccounting: assumes one flusher at a time per ride, and takes recording to be one push, because the other commands of a recording do not touch the event list; `TripListing` adds the active set and counts events without telling them apart.
- TripJournal.DistanceIsAFold: takes each report as one step, because the read and the write of the tracking state are not protected against another report of the same ride.
- TripJournal.SummaryIsLastPersisted: takes each recording and each flush as one step.
- Parsing of stored events: `recordLocation` writes them as JSON itself, so the branch that skips an unreadable event is not modelled.
- ChannelProtocol.Convergence: assumes that Redis works off the commands of a channel in order and that UNSUBSCRIBE succeeds; lost connections and automatic resubscription are not modelled.
- PaymentInvariants.PaymentIdentity: takes generated order ids to be new (ULIDs do not repeat), because the generator is foreign code, and rides with their fares to be fixed, which `RideInvariants.TerminalIsFrozen` justifies for completed ones.
- PaymentRaces.AttemptIsARun: the queue is not modelled beyond repeated attempts; the protocol lets any worker attempt any row at any time, which includes the queue's five attempts with back-off and its time-outs.
- DriverIndex.EvictionIsObservationallySafe: drivers at exactly the same distance keep the order they had, and the three replies of a query are taken from one state of the index.
- SignupLocks.SignupsAreExclusive: new profiles are ACTIVE and stay so, since nothing in the repository changes the status; the two unlocked upserts by phone number have no caller and are not modelled.
- The maintenance processor is not registered in its module; its loop is modelled anyway.
- The refusal when the payment provider is not configured.
- Contents the properties do not depend on: coordinates of a ride, notes, estimated fares and durations, timestamps of rows, response and notification payloads, the provider's name, the wording of exceptions beyond their kind.
- Numbers are exact: decimals are reals, floating-point error is not modelled. Lower-casing covers ASCII letters.
- The routing service, the payment provider's HTTP interface, Redis' geographic distance and the IP whitelist are arbitrary answers given as parameters; a failed distance query answers 0.
- Notifications to drivers and riders, job scheduling, controllers, guards, validation, encryption, tokens, one-time codes and row-to-entity mapping.
