# LiftGo: seats, bookings, search cache, hub and counters

A model of a ride-sharing server. A ride is a route with a number of seats; a
booking holds seats on a segment of that route. The project states what the
server keeps over every run, and proves it.

| files | what they hold |
|---|---|
| `Model`, `Fares`, `Transactions`, `Sums`, `Options` | the two tables, the pricing arithmetic, and each database transaction as a function of the tables |
| `Repository`, `Endpoints`, `Handler` | the repository and the handlers as classes updated in place, each method proved equal to its transaction or endpoint function |
| `Effects`, `Capacity`, `Ledger`, `Seats` | what one transaction can change, the interval reasoning behind the capacity check, the seat ledger, and their consequences for every run of transactions |
| `Interleaving`, `Concurrency` | the endpoints as processes that interleave statement by statement under READ COMMITTED with row locks; serializability, and the seat results carried over to every schedule |
| `Cancellation`, `Completion`, `Retries`, `Schedules` | cancelled rides, completed rides and idempotency keys under that interleaving: what holds, exactly what breaks it, and schedules from the empty system that do |
| `Lifecycle`, `Histories`, `StatusFlags` | statuses over every history of endpoint calls |
| `Rules`, `SearchRules` | the endpoints' and the search's rules written out over the columns of the tables: every check, its order and its error, every change, every caller, every figure shown; proved of the functions the rest of the project uses |
| `Search`, `MatchCache` | the nearby search, its agreement with booking, and the coherence of its cache |
| `Hub` | the WebSocket hub: safety and delivery over every run |
| `FareLaws`, `RateLimit`, `Ratings` | fare arithmetic, the fixed-window limiter, the rounded running average |
| `Scenarios` | concrete runs that reach the bounds or show what fails without their conditions |

Conventions. Row ids are row positions. Fractions, prices, coordinates and
distances are reals; times are integer seconds, and milliseconds in the rate limiter. A transaction that fails rolls
back, so a failed reply carries no tables. A `Ledger` records, per ride, the
first and the largest total, the amount clipped by debits, and the set of
bookings confirmed and not credited since; it is computed from the run alone.

## Results that differ from the documentation or from expectation

- The limiter's header comment promises a sliding window (internal/middleware/ratelimit.go:44); the code counts in fixed windows. Each window admits at most `max`, and any interval of one window length at most `2 * max - 1`, which is reached for every `max` and every window (`RateLimit.NearlyDoubleIsReached`). The sliding-window promise holds exactly when `max` is 1 (`RateLimit.SlidesIff`).
- `available_seats` is not total minus occupied seats. The exact equation has a clipped amount in it. `Seats.AvailableIsExactIff` says exactly when the counter is right, and `Seats.Steady` names runs on which it always is.
- A cancellation can fail: two bookings of about half the route each, confirmed on one seat, clip the counter, and the second cancellation violates `available_seats <= total_seats` and rolls back (`Scenarios.SecondCancelRollsBack`; `Seats.CreditRollsBackIff` gives the exact condition).
- `ride.Update` can lower the total below what is occupied (`Scenarios.LoweredTotalIsExceeded`); the capacity bound is by the largest total so far. `Seats.UpdateKeepsCapacityIff` says exactly which updates keep it within the current one.
- Two segments no longer than 0.02 never overlap under the capacity test, so any number of riders fit on them (`Scenarios.ShortSegmentsHaveNoBound`). With segments of at least `0.02 k / (k - 1)` at most k times the total share a point, and no shorter length will do (`Seats.TrueLoadAtMostTimesTotal`, `Scenarios.ShorterSegmentsExceed`).
- A cancelled ride can come back. Starting a ride tests no status when it writes (internal/booking/handler.go:463), so a start that passed its guard before the cancellation revives the ride (`Schedules.ACancelledRideIsRevived`). A start or a manual status that commits is exactly what it takes (`Cancellation.CancelledUnderInterleaving`).
- A completed ride can have an open booking in two ways: by the manual status endpoint, exactly when it completes a ride with open bookings (`Histories.ManualStatusKeepsLivelyIff`), and by a booking made between a completion's count and its write (`Schedules.ACompletedRideHasAnOpenBooking`), exactly when that booking is still open at the write (`Completion.CompletionIsCleanIff`). A schedule keeps completed rides free of open bookings if and only if none of its completions does either (`Completion.CompletedStayClosedIff`).
- A rider on board can be cancelled. A cancellation whose guard passed earlier writes `cancelled` over whatever the status has become: over `picked_up`, which frees the segment for others while the rider is in the car and credits nothing (`Schedules.ARiderOnBoardIsCancelled`), and over a final status, which makes a fifth change (`Schedules.FiveChangesAreReached`). Four is the bound unless the latter happens (`Concurrency.FiveChangesUnderInterleaving`).
- An idempotency key is unique as long as no creation begins while another with that key is under way (`Retries.AtMostOneBookingPerKeyUnderInterleaving`). Two that overlap repeat it whenever the second is acceptable after the first, on one ride or on two (`Schedules.OverlappingCreatesRepeatAKey`, `Schedules.AKeyIsRepeated`).
- A cached search goes stale when the cascade of a ride that was cancelled and then set active by hand gives seats back (`Scenarios.RevivedRideGoesStale`). A cascade changes no answer to any search exactly when its ride is no longer bookable, or the riders on board alone fill the ride wherever seats come back (`MatchCache.CascadeKeepsAnswersIff`).
- The status summary's `can_cancel`, `can_start` and `can_mark_ready` flags are narrower than the guards they announce; `StatusFlags` gives the exact difference.
- The search cache key omits the searching user; `Search.SameAnswerIff` says exactly when two users' answers agree.

## Model

| member | source | states |
|---|---|---|
| Transactions.SegmentGuard | internal/booking/repository.go:111-131 | a request that passes the location guards has, after clamping and snapping, a non-empty segment inside the route |
| Effects.BookingEdges | internal/booking/repository.go:337-770 | the complete status graph of a booking: for every transaction, which status changes it can make, from which statuses, under which condition |
| Effects.RideEdges | internal/ride/repository.go:447-477 | the complete status graph of a ride, including that no transaction ever sets `full` |
| Effects.BookingMoves | internal/booking/repository.go:411-421 | an existing booking changes only in status, never reopens, and starts to hold seats only by its own confirmation |
| Effects.BookingMovers | internal/booking/repository.go:351-356 | whichever transaction changes a booking's status, its user is the booking's rider (ready), its ride's driver (confirm, pick-up, drop-off, no-show) or one of the two (cancel) |
| Effects.RideMovers | internal/ride/repository.go:415-466 | whichever transaction changes a ride's row, its user is the ride's driver, but for a rider's cancellation; start and completion carry no user |
| Effects.BookingAppears | internal/booking/repository.go:160-180 | only a successful creation adds a booking, exactly one, and it leaves every ride as it was |
| Effects.RideAppears | internal/ride/service.go:44-57 | a new ride is scheduled, with all of at least one seat available |
| Effects.ExecKeepsRows | internal/ride/repository.go:398-477 | no transaction deletes a row, changes a ride's driver, or changes anything of a booking but its status |
| Effects.ExecWf | migrations/003_create_rides.sql:18-32 | every transaction keeps the table constraints and the order of every stored segment |
| Capacity.OccupiedMonotone | internal/booking/repository.go:135-142 | occupancy under the tolerant overlap test grows with the segment |
| Capacity.ConfirmedLoad | internal/booking/repository.go:380-396 | a pending booking that passes the capacity test can be confirmed without exceeding the total at any point inside its shrunken segment |
| Capacity.ConfirmedLoadElsewhere | internal/booking/repository.go:411-421 | at every other point, and on every other ride, confirming changes no load |
| Capacity.TrueLoadAtMostTimes | internal/booking/repository.go:386-387 | if segments are at least 0.02 k / (k - 1) long, the unshrunken load at x is at most k times any bound on the shrunken load: k points spread over the tolerance around x leave no gap a covering segment can hide in |
| Capacity.LoadWithinIff | internal/booking/repository.go:380-396 | the load is within a bound at every point of the route if and only if it is just after every pickup of a seat-holding booking |
| Ledgers.OnlyConfirmOccupies | internal/booking/repository.go:411-418 | no transaction but a confirmation on the ride itself can add an occupant to it |
| Ledgers.ConfirmBalance | internal/booking/repository.go:399-421 | a confirmation keeps the seat equation: debit plus clipped amount equals the seats put on the books |
| Ledgers.CreditBalance | internal/booking/repository.go:479-496 | a credit that commits keeps the seat equation: it returns exactly the seats taken off the books |
| Ledgers.ExecHeldByStatus | internal/booking/repository.go:443-496 | what is on the books is consistent with the statuses after every transaction: confirmed and ready bookings are on, pending and no-show ones are not |
| Ledgers.ExecOneOpen | internal/booking/repository.go:77-89 | every transaction keeps at most one active booking per ride and rider, with no help from the unique index |
| Ledgers.EveryRunIsGood | internal/booking/repository.go:337-506 | after every run of transactions: table constraints, load within the largest total at every point, the seat equation, and one active booking per ride and rider |
| Seats.PeakBoundsTotals | internal/ride/repository.go:406-415 | the ledger's peak is at least the ride's total at every earlier moment |
| Seats.PeakWasReached | internal/ride/repository.go:406-415 | and it was the total at some moment, so it is the largest total the ride has had |
| Seats.CapacityAtEveryPoint | internal/booking/repository.go:394-396 | after every run, at every point of the route, the seats of shrunken occupying segments sum to at most the largest total so far, and to at most the current total if it was never lowered |
| Seats.TrueLoadAtMostTimesTotal | internal/booking/repository.go:380-396 | if occupying segments are at least 0.02 k / (k - 1) long, the unshrunken load at every point is at most k times that total |
| Seats.TrueLoadAtMostDouble | internal/booking/repository.go:380-396 | if occupying segments are at least 0.04 long, the unshrunken load at every point is at most twice that total |
| Seats.UpdateKeepsCapacityIff | internal/ride/repository.go:406-415 | an accepted ride update keeps the load within the new total at every point if and only if the seats taken just after each occupying pickup are within it |
| Seats.CreditedAtMostOnce | internal/booking/repository.go:442-496 | in every run a booking is confirmed at most once and credited at most as often, and is on the books exactly when confirmed and not credited |
| Seats.SeatLedger | internal/booking/repository.go:399-405 | after every run: available seats plus seats on the books equal the initial total plus the clipped amount |
| Seats.CreditRollsBackIff | migrations/003_create_rides.sql:31 | a cancellation or no-show of a seat-holding booking rolls back exactly when initial total plus clipped amount, less the seats the ride's other bookings hold, exceeds the current total |
| Seats.CreditNeverRollsBack | internal/booking/repository.go:746-761 | without clipping and without lowering the total, no credit rolls back |
| Seats.SteadyRunsNeverClip | internal/booking/repository.go:399-405 | on runs with a fixed total, pairwise overlapping segments and no completed or cascade-cancelled booking, no debit clips |
| Seats.AvailableIsExactIff | internal/booking/repository.go:398-405 | after any run the counter is exactly total minus occupied seats if and only if the clipped seats, less the growth of the total, are the seats still debited for completed and cascade-cancelled bookings |
| Seats.AvailableIsExact | internal/booking/repository.go:398-405 | on those runs the counter is exactly total minus occupied seats |
| Endpoints.FindKey | internal/booking/repository.go:25-32 | the lookup finds a booking with the key exactly when there is one |
| Interleaving.ReadTeaches | internal/booking/repository.go:51-89 | what a statement read is true of the committed rows when it is read, and earlier locks are kept |
| Interleaving.KnowledgeSurvives | internal/booking/repository.go:351-396 | what a process has read and checked under its locks stays true across every commit of another process that respects those locks |
| Interleaving.CommitRespects | internal/booking/repository.go:351-358 | a commit that waits for row locks never disturbs a ride that another process has locked |
| Interleaving.CommitIsAtomic | internal/booking/repository.go:399-425 | the rows a process writes from values read earlier are those its transaction would write running alone at the moment of commit |
| Interleaving.EveryScheduleIsSerial | internal/booking/repository.go:34-39 | serializability: after every schedule of statements, lock waits, aborts and commits, the committed tables are those of running the committed transactions one after the other |
| Concurrency.CapacityUnderInterleaving | internal/booking/repository.go:351-421 | the capacity bound at every point, in every reachable state of the interleaved system |
| Concurrency.TrueLoadUnderInterleaving | internal/booking/repository.go:351-421 | the bound on the unshrunken load, for every k, in every reachable state of the interleaved system |
| Concurrency.LedgerUnderInterleaving | internal/booking/repository.go:399-496 | the exact seat equation and at most one credit per booking, in every reachable state of the interleaved system |
| Concurrency.OneActiveBookingUnderInterleaving | migrations/011_booking_active_uniqueness.sql:7-9 | at most one active booking per ride and rider in every reachable state, even without the index |
| Concurrency.AutoCancelNeverRuns | internal/booking/service.go:75-81 | in no reachable state can the cancellation of the other pending bookings of a full ride commit |
| Concurrency.BookingMoversUnderInterleaving | internal/booking/repository.go:351-356 | in every schedule, each committed status change of a booking is made by its rider or its ride's driver, each within their own moves, or by a cascade |
| Concurrency.StartersDrive | internal/booking/handler.go:429-463 | in every reachable state, whoever is about to start a ride drives it, although the start's statement checks nothing |
| Concurrency.RankFallsIff | internal/booking/repository.go:443-472 | a status change lowers the booking's rank if and only if it is not a cancellation of a completed or no-show booking |
| Concurrency.FiveChangesUnderInterleaving | internal/booking/repository.go:337-770 | in every schedule a booking's status changes at most five times, and at most four unless a cancellation commits when it is already completed or a no-show |
| Cancellation.NobodyRidesACancelledRide | internal/booking/repository.go:679-690 | in every reachable interleaved state a picked-up booking's ride is active or completed, even though the pick-up saw the ride's status in an earlier statement |
| Cancellation.CancelledUnderInterleaving | internal/ride/repository.go:463-477 | from any reachable state with a cancelled ride, in every continuation: the ride is still cancelled if and only if no start of it and no manual status on it committed since, and while it is, its open bookings only get fewer and none is picked up |
| Cancellation.CascadeSweeps | internal/ride/handler.go:459-470 | a cascade that commits, with the rows its snapshot matched, leaves no booking open on a ride that is still cancelled |
| Cancellation.SweptUnderInterleaving | internal/ride/handler.go:452-485 | in every continuation after that the ride has no open booking, or it was revived and is active or completed |
| Completion.OpenSinceCount | internal/booking/repository.go:780-804 | in every schedule, while a completion is between its count and its write, every open booking on its ride was made after the count |
| Completion.CompletionIsCleanIff | internal/booking/repository.go:780-804 | so its write leaves no booking open on the ride if and only if every booking made on it since the count is closed again |
| Completion.CompletedStayClosedIff | internal/booking/repository.go:772-811 | in every state that a schedule goes through completed rides have no open booking, if and only if each of its completions is clean in that sense and no manual status completes a ride with open bookings |
| Completion.CompletedMeansClosedUnderInterleaving | internal/booking/repository.go:780-804 | in particular, in every schedule in which no creation commits on a ride between a completion's count and its write, and no manual status completes a ride with open bookings: completed rides have no open booking, and riders are on board only of active rides |
| Retries.AtMostOneBookingPerKeyUnderInterleaving | internal/booking/repository.go:25-34 | in every schedule in which no creation begins while another with its key is under way, at most one booking carries a given non-empty key |
| Schedules.CreateCanCommit | internal/booking/repository.go:34-193 | in every reachable state a creation under way whose ride nobody locks can be continued to its commit, with the effect it has alone |
| Schedules.ConfirmCanCommit | internal/booking/repository.go:337-428 | the same for a confirmation |
| Schedules.CancelCanCommit | internal/booking/repository.go:435-502 | the same for a cancellation that credits seats |
| Schedules.NoShowCanCommit | internal/booking/repository.go:720-770 | the same for a no-show, which goes on to the completion check |
| Schedules.CascadeCanCommit | internal/ride/handler.go:459-470 | in every reachable state a due cascade whose bookings nobody locks can be continued to its commit |
| Schedules.ConfirmedAndCredited | internal/booking/repository.go:24-506 | from the empty system a schedule commits a creation, its confirmation and the cancellation that credits it |
| Schedules.OverlappingCreatesRepeatAKey | internal/booking/repository.go:25-34 | in every reachable state two creations under way with one key can both commit, whenever the second is acceptable after the first |
| Schedules.AKeyIsRepeated | internal/booking/repository.go:25-34 | a schedule from the empty system in which two riders' bookings on one ride carry the same key |
| Schedules.ACancelledRideIsRevived | internal/booking/handler.go:463 | a schedule from the empty system in which a cancelled ride becomes active |
| Schedules.ARiderOnBoardIsCancelled | internal/booking/repository.go:442-472 | a schedule from the empty system in which a picked-up booking becomes cancelled and the counter stays as it was |
| Schedules.FiveChangesAreReached | internal/booking/repository.go:442-472 | a schedule from the empty system in which one booking's status changes five times |
| Schedules.ACompletedRideHasAnOpenBooking | internal/booking/repository.go:780-804 | a schedule from the empty system that leaves a pending booking on a completed ride |
| Lifecycle.HistoryIsARun | internal/booking/service.go:69-133 | every history of endpoint calls and background cancellations is a run of the transactions it logs, so all results on runs hold of it |
| Lifecycle.TimelyCompletes | internal/booking/repository.go:780-804 | outside the manual endpoint a ride becomes completed only when none of its bookings is open |
| Lifecycle.TimelyPicksUp | internal/booking/repository.go:677-690 | a booking becomes picked up only while its ride is active |
| Lifecycle.CascadeSweeps | internal/ride/handler.go:459-470 | the background cancellation closes every pending, confirmed and ready booking of its ride and touches nothing else |
| Lifecycle.EveryHistoryIsSound | internal/ride/handler.go:452-470 | every history without the manual endpoint keeps: picked-up bookings have active rides, completed rides have no open booking, cancelled rides are awaiting their cascade or have none either |
| Histories.CancelledForever | internal/ride/handler.go:452-485 | in histories of uninterrupted calls without the manual endpoint, a cancelled ride stays cancelled, its open bookings only get fewer, none is picked up, and once the cascade has run none is open, in every later state |
| Histories.CompletedMeansClosed | internal/booking/service.go:110-133 | in every state of every such history, completed rides have no open booking and picked-up bookings have an active ride |
| Histories.ManualStatusKeepsLivelyIff | internal/ride/service.go:140-145 | the manual endpoint keeps these invariants if and only if it does not complete a ride with open bookings |
| Histories.NoRideIsEverFull | internal/ride/service.go:140-145 | no run of transactions, manual endpoint included, makes a ride `full` |
| Histories.ConfirmNeverAutoCancels | internal/booking/service.go:69-84 | so in every history confirming is its transaction alone: the auto-cancel branch is dead |
| Histories.AfterDescends | internal/booking/repository.go:411-770 | every endpoint call leaves each booking's status alone or strictly lowers its rank: pending 4, confirmed 3, ready 2, picked up 1, final 0 |
| Histories.FourChangesPerBooking | internal/booking/repository.go:337-770 | a history with N bookings makes at most 4N status changes |
| Histories.AtMostOneBookingPerKey | internal/booking/repository.go:25-32 | in every history at most one booking carries a given non-empty key |
| Histories.ReplayReturnsTheBooking | internal/booking/repository.go:25-32 | after any later history, a creation request with a used key returns the booking made with it and changes nothing |
| Rules.OccupiedIsSeatsTaken | internal/booking/repository.go:134-142 | the capacity queries count exactly the seats of confirmed, ready and picked-up bookings that reach more than 0.02 into the segment from both sides |
| Rules.ServeFollowsTheChecks | internal/booking/handler.go:254-651 | every endpoint, on every input: it succeeds if and only if each of its checks holds, and otherwise reports the error of the first that does not, the checks being written over the columns in the order the code makes them |
| Rules.AlreadyBookedMeans | internal/booking/repository.go:77-89 | a rider is refused as already booked only with a pending, confirmed, ready or picked-up booking on the ride |
| Rules.ServeMakesTheChange | internal/booking/repository.go:166-496 | every accepted call changes exactly the columns its rule names: the new booking with its snapped segment and its price share, the status, the clipped or credited counter, and the ride's completion when no other booking is open |
| Rules.EveryCallFollowsTheRules | internal/booking/handler.go:67-651 | both hold of the next call after every history, the manual endpoint included |
| Rules.BookingCallers | internal/booking/handler.go:275-283 | after every history, the call that changes a booking's status comes from its rider or its ride's driver, each within their own moves |
| Rules.RideCallers | internal/ride/handler.go:426-431 | after every history, a ride's status is changed only by a call of its driver |
| StatusFlags.CancelRideFlag | internal/ride/handler.go:530 | the driver can cancel the ride exactly when `can_cancel` holds or departure is exactly one hour away |
| StatusFlags.StartFlag | internal/ride/handler.go:531 | the driver can start exactly when `can_start` holds or 10 to 60 minutes have passed since departure |
| StatusFlags.CancelBookingFlag | internal/ride/handler.go:550 | the rider can cancel exactly when the booking's `can_cancel` holds or in the listed cases that the flag leaves out |
| StatusFlags.MarkReadyFlag | internal/ride/handler.go:551 | a rider near the pickup can report ready exactly when `can_mark_ready` holds or departure is 15 to 30 minutes away |
| Search.OrderTestIff | internal/booking/repository.go:117-131 | which raw pairs pass booking's order test: every pair in order, and exactly those others that a snap puts in order |
| Search.AcceptedIsListedIff | internal/ride/repository.go:298-332 | a ride on which a booking is accepted is listed by the search for the same points and seats exactly when the raw points are in order and it did not depart exactly one hour ago |
| Search.ListedIffBookable | internal/ride/repository.go:298-332 | where nothing snaps, search and booking agree: listed and not yet booked by the rider, exactly when bookable |
| Search.RowsAreListed | internal/ride/repository.go:295-334 | the answer holds a row for a ride exactly when the ride passes the filters |
| Search.SameAnswerIff | internal/ride/handler.go:129-142 | two users' answers to one question are equal exactly when every matching ride is shown to both or to neither |
| SearchRules.ListedIff | internal/ride/repository.go:298-332 | exactly which rides a search lists, over the columns: status, departure, not one's own, both distances within the radius (1000 by default), direction, and seats (1 by default) beside those taken |
| SearchRules.RowsFollowRides | internal/ride/repository.go:295-334 | every row is that of a listed ride, and no ride has two |
| SearchRules.EveryRowTells | internal/ride/repository.go:225-270 | every row of an answer carries its ride's driver, departure, totals, price and status, and the distances, fractions and coverage of the two points to the decimals shown, pickup before drop-off |
| SearchRules.ListedScore | internal/ride/repository.go:272-293 | a listed ride's score is the nearness of both ends, twice the overlap, the rating over five and the share of free seats: no term is cut off at zero |
| SearchRules.ScoreInRange | internal/ride/repository.go:272-293 | and it lies between 0 and 6 |
| SearchRules.EmptiedIff | internal/ride/handler.go:61-73 | a call empties the cache if and only if it succeeds and is not a booking request, a ready report or a pick-up |
| MatchCache.SameKeyIff | internal/ride/handler.go:49-59 | on the four-decimal grid with whole radii, two searches share a key exactly when, after defaults, they ask the same question |
| MatchCache.KeepingCallsKeepAnswers | internal/booking/handler.go:67-130 | booking creation, rider-ready and pick-up, which do not invalidate, change no answer to any search |
| MatchCache.SearchesAgreeIff | internal/ride/repository.go:298-332 | over the same rides, two states answer every search alike, for every user, time and point of the route, if and only if every bookable ride has the same seats free on every segment |
| MatchCache.CascadeKeepsAnswersIff | internal/ride/handler.go:459-488 | the cascade, which runs after invalidation, changes no answer to any search if and only if its ride is no longer bookable or the riders on board alone fill it wherever seats come back |
| MatchCache.HiddenBelowIff | internal/ride/repository.go:300-311 | with a seat to spare beside the riders on board, the latter holds if and only if seats come back only from bookings within 2% of an end of the route |
| MatchCache.EverySessionIsCoherent | internal/ride/handler.go:134-187 | in every session of calls, searches, expiries and cascades that are harmless in that sense, each cached entry equals a fresh search, so every search is answered as without a cache |
| MatchCache.CarefulIsProper | internal/ride/handler.go:309-332 | cascades are harmless in every session in which nobody sets a ride active by hand while its cascade is due |
| FareLaws.TotalIsFareTimesSeats | internal/booking/repository.go:156-158 | the second rounding changes nothing: the stored total is the rounded fare of one seat times the seats |
| FareLaws.FareIsShare | internal/booking/repository.go:156-157 | a seat's fare on a segment of the route is the ride's price times the segment's length, to the nearest unit with halves upwards |
| FareLaws.WholeRouteIsPrice | internal/booking/repository.go:156-157 | the whole route costs the ride's rounded price |
| FareLaws.TotalIsShare | internal/booking/repository.go:156-158 | the total is within half a unit per seat of the segment's share of the price for all seats |
| FareLaws.BreakdownMeans | internal/booking/repository.go:854-864 | each figure shown is its exact value to the nearest unit: full price, coverage in percent, segment price, total full price; the savings are what the total falls short of it, if it does |
| FareLaws.FareMonotone | internal/booking/repository.go:156-157 | a segment inside another never costs more |
| FareLaws.SplittingChangesLittle | internal/booking/repository.go:156-158 | cutting a segment into n pieces changes the fare of k seats by strictly less than k(n+1)/2 |
| FareLaws.OneSplitChangesAtMostOne | internal/booking/repository.go:840-852 | one cut changes the fare of a seat by at most 1 |
| FareLaws.BookingView.ApplySegmentPricing | internal/booking/repository.go:854-864 | the fields written in place are the price breakdown of the booking at the given price |
| FareLaws.ReadBackIff | internal/booking/repository.go:854-858 | after any later run, the fare read back times seats is the stored total exactly when the ride's price now gives the same segment fare |
| FareLaws.PaidPlusSavedIsFull | internal/booking/repository.go:859-863 | with a whole price, paid plus saved is the full-route price |
| FareLaws.PaidExceedsFullByLittle | internal/booking/repository.go:859-863 | with any price, paid exceeds the full-route price by less than (seats + 1) / 2 |
| Repositories.Repository.Create | internal/booking/repository.go:24-197 | in place: returns the booking of a known key, else the guards in order with their errors, else appends the priced booking; the new tables are those of the creation transaction |
| Repositories.Repository.ConfirmBooking | internal/booking/repository.go:337-432 | in place: the tables and the error are those of the confirmation transaction |
| Repositories.Repository.RestoreSeats | internal/booking/repository.go:479-496 | the credit is written exactly when it respects the table constraint, and otherwise nothing changes |
| Repositories.Repository.CancelBooking | internal/booking/repository.go:435-506 | in place: the tables and the error are those of the cancellation transaction, with full rollback |
| Repositories.Repository.MarkRiderReady | internal/booking/repository.go:657-675 | in place: the tables and the error of the ready transaction |
| Repositories.Repository.MarkPickedUp | internal/booking/repository.go:677-697 | in place: the tables and the error of the pick-up transaction |
| Repositories.Repository.MarkDropped | internal/booking/repository.go:699-718 | in place: the tables and the error of the drop-off transaction |
| Repositories.Repository.MarkNoShow | internal/booking/repository.go:720-770 | in place: the tables and the error of the no-show transaction, with full rollback |
| Repositories.Repository.CheckAndUpdateRideCompletion | internal/booking/repository.go:772-811 | completes the ride, and says so, exactly when it is active and none of its bookings is open |
| Repositories.Repository.CancelPendingBookingsOnRide | internal/booking/repository.go:611-655 | cancels the ride's pending bookings but the excluded one, and nothing else |
| Repositories.Repository.CascadeCancel | internal/ride/handler.go:459-470 | cancels the ride's pending, confirmed and ready bookings, and nothing else |
| Repositories.Repository.CreateRide | internal/ride/service.go:34-85 | in place: the tables and the error of ride creation |
| Repositories.Repository.UpdateRide | internal/ride/repository.go:398-445 | in place: the tables and the error of the ride update, rejected exactly when the departure is past, the driver is wrong or the new total is below the available seats |
| Repositories.Repository.UpdateRideStatus | internal/ride/repository.go:447-461 | in place: the tables and the error of the manual status update |
| Repositories.Repository.CancelRide | internal/ride/repository.go:463-477 | in place: the tables and the error of the ride cancellation |
| Handlers.Handler.CreateBooking | internal/booking/handler.go:67-130 | tables, due cascades, cache and reply are those of the endpoint; the cache is kept |
| Handlers.Handler.ConfirmBooking | internal/booking/handler.go:180-252 | tables, due cascades, cache and reply are those of the endpoint; success empties the cache |
| Handlers.Handler.CancelBooking | internal/booking/handler.go:254-341 | the same, with the guards on actor, status and the hour before departure |
| Handlers.Handler.RiderReady | internal/booking/handler.go:360-427 | the same, with the guards on rider, status, time and place; the cache is kept |
| Handlers.Handler.StartRide | internal/booking/handler.go:429-491 | the same, with the guards on driver, status and the window around departure |
| Handlers.Handler.PickedUp | internal/booking/handler.go:493-544 | the same, with the guards on driver, ride, booking and place; the cache is kept |
| Handlers.Handler.Dropped | internal/booking/handler.go:546-593 | drop-off followed by the completion check, as two transactions in order |
| Handlers.Handler.NoShow | internal/booking/handler.go:595-651 | no-show followed by the completion check, as two transactions in order |
| Handlers.Handler.CreateRide | internal/ride/handler.go:239-263 | tables, cache and reply are those of the ride creation endpoint; success empties the cache |
| Handlers.Handler.UpdateRide | internal/ride/handler.go:282-306 | tables, cache and reply are those of the ride update endpoint |
| Handlers.Handler.UpdateStatus | internal/ride/handler.go:309-403 | tables, cache and reply are those of the manual status endpoint |
| Handlers.Handler.CancelRide | internal/ride/handler.go:406-490 | success cancels the ride, leaves its cascade due and empties the cache |
| Handlers.Handler.RunCascade | internal/ride/handler.go:459-485 | the cascade takes the ride off the due list, closes its bookings and keeps the cache |
| Handlers.Handler.FindNearby | internal/ride/handler.go:134-190 | answers from the cache on a hit, else from the tables, and stores what it answers |
| Hubs.EveryRunIsSafe | internal/ws/hub.go:41-106 | in every run in which each client registers once: no send on or close of a closed channel, each channel closed at most once, clients sit only in their own room with an open channel, buffers within 256, no empty room |
| Hubs.LeftForGood | internal/ws/client.go:50-55 | after a client's unregister, and after any later run, it is in no room and its channel was closed exactly once |
| Hubs.EveryRunDelivers | internal/ws/hub.go:61-103 | in every run, what was enqueued for a client is a prefix, in order, of what its room was sent since it joined (locations only for riders), and all of it while the client is in the room |
| Hubs.SendDelivers | internal/ws/hub.go:69-101 | one broadcast either appends the message to an addressed open client or, if its buffer is full, closes and evicts it; nobody else changes |
| Hubs.BroadcastMeans | internal/ws/hub.go:61-103 | for a client in the room: a driver gets no locations; otherwise the message goes to the end of its buffer, or, when 256 wait, its channel is closed and it leaves the room |
| Hubs.Client.TrySend | internal/ws/hub.go:74-76 | enqueues at the end exactly when the buffer is not full; never called on a closed channel |
| Hubs.Client.SendOrClose | internal/ws/hub.go:92-98 | keeps and delivers, or closes a client whose buffer is full |
| Hubs.Client.WriteNext | internal/ws/client.go:123-135 | takes the oldest message, also from a closed channel, until none is left |
| Hubs.Hub.Register | internal/ws/hub.go:44-48 | in place: the hub's state is that of the join event |
| Hubs.Hub.Unregister | internal/ws/hub.go:50-59 | in place: the hub's state is that of the leave event; a client already gone is left alone |
| Hubs.Hub.SendToRoom | internal/ws/hub.go:69-81 | whatever the iteration order over the room, each addressed client gets the message or is closed, and exactly the others stay |
| Hubs.Hub.Broadcast | internal/ws/hub.go:61-103 | in place: the hub's state is that of the broadcast event, and an emptied room is removed |
| RateLimit.Limiter.IncrementCounter | internal/middleware/ratelimit.go:113-139 | only the first hit of a window sets the expiry; other keys are untouched |
| RateLimit.Limiter.Handle | internal/middleware/ratelimit.go:49-107 | a request is allowed exactly when its count is at most the maximum, with the headers' remaining and retry values |
| RateLimit.TtlMeans | internal/middleware/ratelimit.go:132-138 | the seconds reported are the remaining time to the nearest second, or a whole window when no expiry is set |
| RateLimit.RetryAfterIsEnough | internal/middleware/ratelimit.go:84-101 | a client that waits as long as it was told, and half a second for the rounding, opens a new window |
| RateLimit.RequestIsItsEvents | internal/middleware/ratelimit.go:113-130 | an uninterrupted request is its increment followed, on count 1, by its expiry: the interleaved event runs cover the sequential limiter |
| RateLimit.WindowInvariant | internal/middleware/ratelimit.go:124-130 | in every ordered run the counter and its expiry agree with the current window |
| RateLimit.WindowAdmitsAtMostMax | internal/middleware/ratelimit.go:84-104 | every window admits at most the maximum |
| RateLimit.OpeningsAreApart | internal/middleware/ratelimit.go:126-130 | windows are disjoint: two openings are at least one window length apart |
| RateLimit.AnyIntervalAdmitsLessThanDouble | internal/middleware/ratelimit.go:109-130 | every half-open interval of one window length admits at most 2 max - 1 |
| RateLimit.NearlyDoubleIsReached | internal/middleware/ratelimit.go:109-130 | for every maximum and every window a run admits exactly 2 max - 1 in one window length |
| RateLimit.SlidesIff | internal/middleware/ratelimit.go:44-45 | the documented sliding window holds, over all ordered runs and all intervals, if and only if max is 1 |
| Ratings.ReviewStore.Create | internal/review/repository.go:20-98 | in place: a review is stored if and only if it has 1 to 5 stars, its booking is completed, reviewer and reviewee are the rider and the driver in one order, and this reviewer has not reviewed the booking; only the reviewee's rating moves, and every stored rating is the running average of its stored reviews |
| Ratings.DecideIff | internal/review/service.go:17-28 | which of the four conditions a refusal reports: the first that fails |
| Ratings.ReviewsAreOfCompletedTrips | internal/review/repository.go:28-49 | in every run of transactions and attempted reviews, each stored review was written when its booking was completed, and is still between its rider and its driver |
| Ratings.AtMostTwoReviews | migrations/006_create_reviews.sql:10 | in every run a booking has at most two reviews |
| Ratings.AverageInRange | internal/review/repository.go:71-77 | after at least one review the average lies in 1.0 to 5.0 and the count is the number of reviews |
| Ratings.DriftIsBounded | internal/review/repository.go:71-77 | the stored average differs from the true mean of n reviews by at most 0.025 (n + 1) |
| Ratings.MovesIff | internal/review/repository.go:71-77 | exactly which reviews move the stored average |
| Ratings.FrozenAfterEighty | internal/review/repository.go:71-77 | after eighty reviews no further review moves it |
| Ratings.SeventyNineIsNotEnough | internal/review/repository.go:71-77 | eighty is sharp: after seventy-nine reviews one can still move it |
| Ratings.StoredRatingMeaning | migrations/002_create_users.sql:8-9 | range, count and drift hold of every user's stored rating in every state of the store |
| Scenarios.TwiceTheTotalIsReached | internal/booking/repository.go:380-396 | the bound of twice the total is attained, with segments longer than half the route |
| Scenarios.SecondCancelRollsBack | internal/booking/repository.go:479-496 | a run after which two riders' cancellations pass the endpoint's guard, the first succeeds and the second rolls back |
| Scenarios.LoweredTotalIsExceeded | internal/ride/repository.go:409 | a run in which the load exceeds the current total |
| Scenarios.ShortSegmentsHaveNoBound | internal/booking/repository.go:140-141 | for every n, a run that puts n riders on one point of a one-seat ride |
| Scenarios.ShorterSegmentsExceed | internal/booking/repository.go:140-141 | for every k and every length between 0.02 and 0.02 k / (k - 1), a run that puts k + 1 riders with segments of that length on one point of a one-seat ride |
| Scenarios.RevivedRideGoesStale | internal/ride/handler.go:142-154 | a session whose cached answer is empty although a fresh search lists a ride |
| Scenarios.WholeTrip | internal/booking/service.go:69-133 | the ordinary trip is accepted call by call, from offer to drop-off, and the ride completes by itself |

## Left out

- Spatial geometry: where a point falls on a route, and how far from it, are parameters; so are the driver's rating in the match score and the checks that coordinates are present and in range.
- Floating point: fares, fractions and scores are reals, rounded halves away from zero; float error is not modelled.
- Integer width: seat counts are unbounded; a sum beyond 32 bits in a credit would fail, as the table constraint already makes it fail.
- HTTP decoding, authentication, e-mail, push, audit rows, labels, notes, recurrence and user profiles: no effect on the modelled state.
- Legacy rows: tables start empty; rides come from ride creation, so null fractions and a preset `full` status do not occur.
- Database failures: only rollback on a constraint and an abort at any moment are modelled; a deadlock is an abort.
- Redis failures and pattern scans: invalidation empties the cache; the limiter's second key is written and never read, and is left out.
- Interleaving.Commits: the cancellation of other pending bookings after a confirmation may pick any of the ride's rows; `Concurrency.AutoCancelNeverRuns` shows that it never commits.
- Histories.CancelledForever: is about uninterrupted endpoints; `Cancellation.CancelledUnderInterleaving` and `Cancellation.SweptUnderInterleaving` are the statements about interleaved ones.
- Histories.FourChangesPerBooking: is about uninterrupted endpoints; `Concurrency.FiveChangesUnderInterleaving` is the bound for interleaved ones.
- MatchCache.EverySessionIsCoherent: is for one user or users the search treats alike, a fixed clock and fixed ratings; a cascade that is not harmless can make an entry stale, as `Scenarios.RevivedRideGoesStale` shows.
- Search.RowsAreListed: rows come in table order; the order by score is a function of the rows, with ties left to the database.
- Search.AcceptedIsListedIff: raw fractions are taken to lie within 0 and 1, as the spatial database returns them; so are those of the sessions of `MatchCache.EverySessionIsCoherent`.
- Hubs.Hub.Broadcast: one case of the endless loop; channel queues towards the hub, message encoding, deadlines and pings are not modelled, and `ReadPump` appears as the events it sends.
- RateLimit.Limiter.Handle: the store is taken to keep expiries in milliseconds and to round the time to live it reports to whole seconds; the address is taken as the key.
- Handlers.Handler.CancelRide: the cascade is a separate later step of the same object, as the goroutine is.
- The repository's `UpdateStatus` for bookings: it has no caller.
