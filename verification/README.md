# Verified model of the ride marketplace

A Dafny 4.11 model of the transactional core of the ride-hailing backend, with proofs. `dafny verify dfyconfig.toml`
checks all of it.

**The marketplace.** `MarketState` has one map per table: rides, opportunities, offers, trips, and the driver-side
tables. `Expiry` holds the six deadline updates and their combined effect. `Transactions` gives each repository method as
a function from the old state to the committed one, at one instant per transaction, with a refusal rolling back
everything including the sweep that ran first. `Database` is the imperative form: a class with a field per table and a
method per repository method, each proved to reach exactly the state and reply of its function and to keep the
cross-table invariant of `Invariants`.

On top of these stand the main results:

- `Meanings` with `OfferAnswers`, `RiderAnswers`, `FeedAnswers` and `DriverAnswers`: for every operation its exact success
  condition, its refusals, every column it writes and what it leaves alone, read off the rows stored before the call,
  whether or not a sweep has run.
- `Preservation`, `Runs`, `Histories`: every state reached by any sequence of events satisfies the invariant; rows are
  one-shot and changes are bounded by rank.
- `Transparency`, `TransparentOutcomes`, `Histories`: when, where and whether deadlines are materialised is invisible.
  `Live(s, now)` is what a state means: deadlines applied, dead rows stripped of their label and bookkeeping times.
- `ReadPath`, `Discovery`: the rider's list and the driver's feed agree exactly with what the write path will accept.
- `Lifecycle`: ride, trip, offer and opportunity statuses determine each other; fares are conserved; the inconsistency
  branches are unreachable.
- `Effects`: what a response makes possible at once, and what it rules out for ever.
- `Presence`: eligibility means an unbroken two-minute position lease since the driver last went online.
- `CurrentTrip`: when the current-trip query finds the active trip, and when it does not.
- `Interleaving`: any number of assignments, statement by statement under READ COMMITTED with row locks, next to
  arbitrary lock-respecting changes elsewhere. The trips table is a list without any unique key.
- `Refinement`: what an interleaved assignment commits is what the atomic one writes, up to decision times.
- `Progress`: with nobody in its way, an assignment commits exactly when the atomic selection succeeds.
- `Scenarios`: concrete runs from empty tables behind the negative results.

**Pricing.** `Calculation` (exact rational fare, one half-up rounding), `MoneyText` (decimal parsing and printing),
`Fares` (90-130% bounds in int64), `PolicyHistory`, an interleaved model of publishing, disabling and priced creation, and
`PolicyEffects`: what each of them achieves at its commit, and exactly when an uncontended one commits.

**Review and limits.** `Onboarding` with its imperative form `OnboardingDatabase` and its answers in
`OnboardingAnswers`, the window limiter in `RateLimit`, and the row-grouping loop of the vehicle list in
`VehicleListing`.

## Where code, documentation and properties differ

- `docs/WORKLOG.md` lines 38-39 and 190-191 say that a rejected driver may offer again. The code inserts with ON CONFLICT
  DO NOTHING and demands an open opportunity, so a pair is offered at most once (`Histories.RowHistory`).
- The active trip is not always the current one when assignment instants may be equal: `CurrentTrip.ActiveTripIsCurrentIff`
  gives the exact condition and `CurrentTrip.EqualInstantsHideTheActiveTrip` a run.
- The application type derived on a later read can differ from the one told at submission when clock readings are equal:
  `Onboarding.DerivedKindDiffersIff` gives the exact condition and `Onboarding.EqualReadingsChangeTheKind` a run.
- Reading the raw stored offer is not transparent to sweeps: `Histories.StoredStatusChangesIff` gives the exact condition and
  `Scenarios.SweepRewritesStoredOffer` a run.
- The limiter admits at most 2 * limit - 1 calls in one window length, one fewer than twice the limit, and the bound is met.

## Assumptions

- Instants are integers in microseconds and never decrease from one transaction to the next; a property that needs strictly
  increasing instants says so.
- A distance is an arbitrary function of two points. New identifiers are parameters; inserting one that exists is the
  database's constraint error.
- Service activation, capabilities, timing policies and vehicle registrations change by events of their own, at any time.
- In `Interleaving`, changes elsewhere insert no trip and only move rows forward, which `CurrentTrip.OthersAddNoTrip` and
  `Runs.EventEvolves` prove of every other event, and respect the row locks that the in-flight transactions hold. In
  `Refinement` they also store no offer on its driver's own ride, as `ReadPath.NoOwnRideOffers` proves.
- The sweep's updates lock and write rows one at a time and in any order there, which covers the six statements.

## Model

| member | source | states |
|---|---|---|
| Expiry.SixStatementsSettle | backend/internal/marketplace/lifecycle.go:21-64 | The six updates in order have exactly one row-by-row effect on rides, offers and opportunities |
| Expiry.SettleIsComplete | backend/internal/marketplace/lifecycle.go:22-57 | Afterwards no pending offer is overdue or on a closed ride, no open window is past or on a closed ride, no offered opportunity has an expired offer, no requested ride without trip is past its deadline |
| Expiry.SettledIffFixed | backend/internal/marketplace/lifecycle.go:22-57 | A state with nothing overdue is exactly a state the sweep leaves unchanged |
| Expiry.SettleIsIdempotent | backend/internal/marketplace/lifecycle.go:58-63 | A second sweep at the same instant changes nothing |
| Fares.PercentFloorIsExact | backend/internal/offer/offer.go:172-174 | Equals the exact floor, and no int64 step wraps, for values up to 2^62 |
| Fares.PercentCeilIsExact | backend/internal/offer/offer.go:176-180 | Equals the exact ceiling, and no int64 step wraps, for values up to 2^62 |
| Fares.BoundsMeanPercentages | backend/internal/offer/offer.go:168-180 | An amount is within the bounds iff it is between 90% and 130% of the proposal; the proposal always is |
| Preservation.StatementKeepsInv | backend/internal/marketplace/lifecycle.go:22-57 | Each sweep statement alone, at any instant, keeps the cross-table invariant |
| Preservation.CreateRideKeepsInv | backend/internal/ride/postgres_repository.go:23-77 | Creating a ride keeps the invariant |
| Preservation.UpsertKeepsInv | backend/internal/offer/postgres_repository.go:50-186 | Offering keeps the invariant whenever the bounds are those of the ride's own fare |
| Preservation.SkipKeepsInv | backend/internal/offer/postgres_repository.go:188-222 | Skipping keeps the invariant |
| Preservation.RejectKeepsInv | backend/internal/offer/postgres_repository.go:224-300 | Rejecting keeps the invariant |
| Preservation.SelectOfferKeepsInv | backend/internal/marketplace/assignment_postgres.go:16-143 | Assigning keeps the invariant: trip, ride, offer and opportunity agree, one active trip per driver |
| Preservation.CancelsKeepInv | backend/internal/cancellation/postgres_repository.go:27-126 | Both cancellations keep the invariant: ride and trip are cancelled together, at one instant |
| Preservation.ExecutionKeepsInv | backend/internal/trip/postgres_repository.go:76-205 | Start, complete and cash confirmation keep the invariant, including the column CHECKs of a trip |
| Preservation.DiscoverKeepsInv | backend/internal/offer/discovery_postgres.go:11-140 | Opening windows keeps the invariant, so each window's ride is live, priced and not the driver's own |
| Preservation.SetOnlineKeepsInv | backend/internal/driver/postgres_repository.go:95-153 | Going on- or offline keeps the invariant |
| Preservation.SelectOperationKeepsInv | backend/internal/driver/selection.go:70-117 | Changing the operating vehicle never changes that of a driver with an active trip |
| Preservation.UpdateLocationKeepsInv | backend/internal/driverlocation/postgres_repository.go:16-55 | A heartbeat keeps the invariant |
| Preservation.PresenceKeepsInv | backend/internal/driver/presence.go:14-40 | Presence expiry, with any set of rows skipped as locked, keeps the invariant |
| Preservation.EnrollKeepsInv | backend/internal/driveronboarding/postgres_repository.go:279-302 | Registering a vehicle for a driver keeps the invariant |
| Evolution.StatementEvolves | backend/internal/marketplace/lifecycle.go:22-57 | Each sweep statement leaves every row equal or strictly lowers its rank, fixing identity, fare and deadline columns |
| Evolution.UpsertEvolves | backend/internal/offer/postgres_repository.go:50-186 | Offering changes existing rows only by lowering rank |
| Evolution.SelectOfferEvolves | backend/internal/marketplace/assignment_postgres.go:111-138 | Assigning changes existing rows only by lowering rank |
| Evolution.CancelsEvolve | backend/internal/cancellation/postgres_repository.go:211-277 | Cancelling changes existing rows only by lowering rank |
| Evolution.ExecutionEvolves | backend/internal/trip/postgres_repository.go:88-195 | Trip steps change the trip only by lowering its rank; repeats change nothing |
| Evolution.DiscoverEvolves | backend/internal/offer/discovery_postgres.go:61-68 | Opening never rewrites an existing opportunity |
| ReadPath.SelectableIffSelectSucceeds | backend/internal/offer/rider_postgres.go:41-72 | Selecting an offer at a version succeeds iff the rider's list at that instant shows it at that version as selectable |
| ReadPath.NoOwnRideOffers | backend/internal/offer/postgres_repository.go:91-93 | No driver ever holds an offer on their own ride, which only the offer path checks |
| Discovery.TopPrecedesRest | backend/internal/offer/discovery_postgres.go:49-59 | Every row kept by the limit ranks before every row dropped |
| Discovery.TopSize | backend/internal/offer/discovery_postgres.go:49-59 | The limit keeps all rows when they fit, exactly n otherwise, none when n is negative |
| Discovery.OpenedRankFirst | backend/internal/offer/discovery_postgres.go:27-60 | Each newly opened ride ranks by distance, age and id before every openable ride left out |
| Discovery.OpeningStaysWithinLimit | backend/internal/offer/discovery_postgres.go:50-104 | Opening never exceeds the limit of open windows, so the feed's own LIMIT drops no row |
| Discovery.DiscoveredRidesAcceptable | backend/internal/offer/discovery_postgres.go:26-105 | Each item shown is quoted and can be accepted at that instant at the fare shown, although the feed re-checks neither capability, own ride, fare nor earlier offer |
| Discovery.DiscoverSucceeds | backend/internal/offer/discovery_postgres.go:111-139 | Discovery never fails on a reachable state: no shown ride lacks a fare |
| Transparency.StatementIsTransparent | backend/internal/marketplace/lifecycle.go:21-64 | Any one statement, at any instant up to now, leaves the meaning of the state at now unchanged |
| Transparency.LiveLater | backend/internal/marketplace/expiry_service.go:5-18 | Meaning at an earlier instant, looked at later, is the meaning of the state later |
| TransparentOutcomes.MarketTransparent | backend/internal/offer/postgres_repository.go:19-48 | Quotes do not depend on which deadlines have been materialised |
| TransparentOutcomes.ListTransparent | backend/internal/offer/rider_postgres.go:12-131 | The rider's list does not depend on which deadlines have been materialised |
| TransparentOutcomes.UpsertTransparent | backend/internal/offer/postgres_repository.go:50-186 | Same reply and same meaning afterwards on a state and on its meaning |
| TransparentOutcomes.SkipTransparent | backend/internal/offer/postgres_repository.go:188-222 | Same reply and same meaning afterwards |
| TransparentOutcomes.RejectTransparent | backend/internal/offer/postgres_repository.go:224-300 | Same reply and same meaning afterwards |
| TransparentOutcomes.SelectOfferTransparent | backend/internal/marketplace/assignment_postgres.go:16-143 | Same reply and same meaning afterwards |
| TransparentOutcomes.CancelsTransparent | backend/internal/cancellation/postgres_repository.go:27-126 | Same reply and same meaning afterwards, for both parties |
| TransparentOutcomes.DiscoverTransparent | backend/internal/offer/discovery_postgres.go:11-140 | Same feed, same windows opened, same meaning afterwards |
| Runs.NextKeepsWorldInv | backend/internal/marketplace/lifecycle.go:21-64 | Every event keeps the invariant, the exactness of quotes handed out, and the discovery limit |
| Runs.EventEvolves | backend/internal/offer/postgres_repository.go:98-179 | Every event of the system leaves rows equal or lowers their rank |
| Runs.OnlyDiscoveryOpens | backend/internal/offer/discovery_postgres.go:61-68 | No event but discovery inserts an opportunity |
| Runs.EventKeepsLimit | backend/internal/offer/offer.go:21-25 | With atomic discovery no driver ever has more than fifty open windows |
| Histories.ReachableWorldsAreValid | backend/internal/marketplace/assignment_postgres.go:16-143 | Every state reached by any run from empty tables satisfies the cross-table invariant |
| Histories.RowHistory | backend/internal/offer/postgres_repository.go:111-179 | Over any run a pair is opened at most once and offered at most once, and each row changes at most 2, 2, 1 or 3 times (ride, opportunity, offer, trip) |
| Histories.ExistingRowHistory | backend/internal/marketplace/lifecycle.go:22-57 | A row is never removed or re-inserted; changes are paid for by rank |
| Histories.TerminalRowsNeverChange | backend/internal/trip/postgres_repository.go:88-195 | A row in a terminal status stays identical in every continuation |
| Histories.SweepsAreTransparent | backend/internal/marketplace/expiry_service.go:5-18 | Deleting all sweep statements from any run changes no reply and nothing the final state means, then or later |
| Histories.StoredStatusChangesIff | backend/internal/offer/postgres_repository.go:302-326 | A sweep changes the stored row read back iff it is pending and overdue, or pending on a closed or overdue ride; the meaning never changes |
| Histories.StoredStatusChangesByStatementIff | backend/internal/marketplace/lifecycle.go:22-57 | Of the six statements only the first and the fifth change a stored offer, each iff its own condition holds |
| Scenarios.SweepRewritesStoredOffer | backend/internal/offer/postgres_repository.go:302-326 | A run from empty tables in which a sweep changes the stored offer exactly from the earlier of the offer's and the ride's deadline |
| Scenarios.RidesTied | backend/internal/marketplace/assignment_postgres.go:16-143 | A run from empty tables in which one driver is assigned two rides at one instant, the first completed in between |
| Lifecycle.RideStatusFollowsTrip | backend/internal/cancellation/postgres_repository.go:192-257 | Accepted iff the trip exists uncancelled; cancelled iff the trip is, at the same time; requested and expired rides have none; never both completed and cancelled |
| Lifecycle.AcceptedPairHoldsTheTrip | backend/internal/marketplace/assignment_postgres.go:111-138 | Offer accepted iff opportunity accepted iff the ride's trip is that driver's |
| Lifecycle.ActiveTripBindsDriver | backend/internal/driver/selection.go:80-112 | While a trip is active its driver operates the captured vehicle, has no other active trip, and was assigned none later |
| Lifecycle.ExecutionRepeats | backend/internal/trip/postgres_repository.go:101-195 | A repeated start, completion or cash confirmation replies the same and writes nothing |
| Lifecycle.CancelRepeats | backend/internal/cancellation/postgres_repository.go:46-55 | A repeated cancellation gets the first answer |
| Lifecycle.FareIsConserved | backend/internal/marketplace/assignment_postgres.go:208-217 | A trip's fare equals its accepted offer's amount and currency and stays within 90-130% of the ride's fare in every continuation |
| Lifecycle.OfferIsConsistent | backend/internal/offer/offer.go:126-154 | With an earlier unlocked quote neither the amount CHECK nor the pair key ever fires |
| Lifecycle.NoInternalErrors | backend/internal/cancellation/postgres_repository.go:192-257 | No event on a reachable state meets inconsistent rows, and no constraint fires but the one on a ride's own insert |
| Effects.OfferIsSelectableAtOnce | backend/internal/offer/postgres_repository.go:144-179 | A successful offer was quotable, is listed as selectable at its own version, and selecting it at that instant succeeds |
| Effects.GoingOnlineMakesEligible | backend/internal/driver/postgres_repository.go:109-148 | Going online makes the driver eligible for some service at that instant; going offline, for none |
| Effects.CanChangeIffNotLocked | backend/internal/driver/selection.go:41-112 | The operating state says a change is possible iff changing is not refused as locked; a change selects exactly that vehicle |
| Effects.SelectionClosesTheRide | backend/internal/marketplace/assignment_postgres.go:111-138 | After a selection one offer is accepted and nobody else has anything pending, open or offered on the ride |
| Effects.CancellationClosesTheRide | backend/internal/cancellation/postgres_repository.go:211-277 | After a cancellation ride and trip are cancelled at the replied time and no response to the ride is pending, open or offered |
| Effects.ResponsesAreFinal | backend/internal/offer/postgres_repository.go:98-113 | Once a window is answered, skipped or missed, no continuation lets the driver offer on or skip that ride |
| Effects.DecisionsAreFinal | backend/internal/marketplace/assignment_postgres.go:58-74 | Once an offer is decided or expired, no continuation lets it be selected |
| Effects.RefusalsDecide | backend/internal/offer/postgres_repository.go:197-288 | A skip and a rejection set their own labels on the pair, and the reply is the stored row |
| Effects.ExecutionFollowsOrder | backend/internal/trip/postgres_repository.go:88-195 | A trip starts iff active, completes iff started, settles iff completed, with the columns each step promises |
| Presence.StepCarriesOver | backend/internal/driverlocation/postgres_repository.go:24-28 | No step but a successful request puts a driver online, and a heartbeat keeps one online only if the old position was fresh |
| Presence.RefusedOnlineWritesNothing | backend/internal/driver/postgres_repository.go:109-140 | A refused request to go online leaves the state unchanged |
| Presence.EligibilityIsAContinuousLease | backend/internal/driverlocation/postgres_repository.go:16-54 | A driver eligible now went online in the run and had a stored position at most 120 s old at every instant since |
| Presence.LapseIsFinal | backend/internal/driver/presence.go:14-40 | After a lapse only a new successful request makes the driver available again |
| CurrentTrip.CurrentExists | backend/internal/drivertrip/postgres_repository.go:36-45 | A current trip is returned iff the driver has an active or unsettled one |
| CurrentTrip.CurrentIsUnique | backend/internal/drivertrip/postgres_repository.go:43-44 | The order leaves one choice |
| CurrentTrip.CurrentMeans | backend/internal/drivertrip/postgres_repository.go:36-45 | The current trip is the last assigned, greatest id among equals, of the driver's assigned, started, and completed but unsettled trips |
| CurrentTrip.SettlementClosesTheTrip | backend/internal/drivertrip/postgres_repository.go:36-45 | A completed trip stays in the query until its cash is confirmed; then it leaves it, and no other trip enters or leaves |
| CurrentTrip.ActiveTripIsCurrentIff | backend/internal/drivertrip/postgres_repository.go:36-45 | The active trip is returned iff no unsettled trip of equal assignment instant has a greater id |
| CurrentTrip.EqualInstantsHideTheActiveTrip | backend/internal/drivertrip/postgres_repository.go:36-45 | That run ends with the completed trip returned as the current one while the other is active |
| CurrentTrip.ActiveTripIsAlwaysCurrent | backend/internal/drivertrip/postgres_repository.go:36-45 | With strictly increasing instants the active trip is always the current one |
| Meanings.EligibleMeans | backend/internal/driver/marketplace_postgres.go:14-53 | Eligible iff active, online, capable, with an own enrolled vehicle selected, a position at most 120 s old and no trip under way |
| Meanings.SweptRide | backend/internal/marketplace/lifecycle.go:38-42 | A sweep expires exactly the requested rides past their deadline without trip |
| Meanings.SweptOffer | backend/internal/marketplace/lifecycle.go:23-49 | A pending offer expires at its own deadline, closes with its ride before that, and otherwise stays |
| Meanings.SweptOpportunity | backend/internal/marketplace/lifecycle.go:26-56 | An offered window expires with its offer, an open one at its end, both close with their ride, the first answer's time stays |
| OfferAnswers.MarketAnswers | backend/internal/offer/postgres_repository.go:19-48 | Quoted iff the stored ride is open, at its own proposed fare; not found iff missing, overdue or taken |
| OfferAnswers.SubmitSucceedsIff | backend/internal/offer/offer.go:126-141 | For any quote and any tables: the exact condition, over the rows before the call, under which an amount is taken |
| OfferAnswers.QuotedSubmitAnswers | backend/internal/offer/postgres_repository.go:50-143 | With a true quote: taken iff 90-130%, ride open, not the driver's own, window open, driver ready; and the refusal for each failing case |
| OfferAnswers.AcceptProposedIsSubmit | backend/internal/offer/offer.go:143-154 | Accepting the proposed fare is submitting that amount, and is never out of bounds |
| OfferAnswers.SubmitStores | backend/internal/offer/postgres_repository.go:144-179 | The stored and replied row carries the driver's amount, the quote's currency, its deadline and the captured vehicle, service and names; the window is answered now; every other row is as a sweep leaves it |
| OfferAnswers.SkipAnswers | backend/internal/offer/postgres_repository.go:188-222 | Skipped iff the window and its ride are open; only the window's answer and its time change |
| RiderAnswers.CreateRideAnswers | backend/internal/ride/postgres_repository.go:23-77 | Created iff the service is listed, the fare acceptable and the identifier new; the row's columns and deadline |
| RiderAnswers.RejectAnswers | backend/internal/offer/postgres_repository.go:224-288 | Rejected iff the rider's own open ride and a pending unexpired or already rejected offer; the refusal for each other case |
| RiderAnswers.RejectWrites | backend/internal/offer/postgres_repository.go:258-294 | The offer becomes rejected now with its opportunity, a repeat writes nothing but deadlines, every other row is as a sweep leaves it |
| RiderAnswers.SelectAnswers | backend/internal/marketplace/assignment_postgres.go:32-110 | Selected iff the rider's own open ride, the live offer at that version, and the driver ready in the offered vehicle; the refusal for each other case |
| RiderAnswers.SelectWrites | backend/internal/marketplace/assignment_postgres.go:111-138 | The trip's every column comes from the offer and this instant; ride, offer and opportunity are accepted; every other response to the ride ends; nothing else but deadlines moves |
| RiderAnswers.CancelByRiderAnswers | backend/internal/cancellation/postgres_repository.go:27-74 | Cancelled iff the rider's own, not lapsed, trip not completed; recorded and replied as the rider's at this instant, or the first cancellation replied; all that it closes |
| RiderAnswers.CancelByDriverAnswers | backend/internal/cancellation/postgres_repository.go:76-126 | Cancelled iff the driver's trip is not completed; recorded and replied as the driver's at this instant, or the first cancellation replied; all that it closes |
| RiderAnswers.ListAnswers | backend/internal/offer/rider_postgres.go:12-131 | Each live offer of the rider's open ride is listed exactly once, with its distance, fare match and selectability read from the tables |
| FeedAnswers.DiscoverInserts | backend/internal/offer/discovery_postgres.go:26-71 | Windows are inserted only for this driver, only for open rides of others without a row that the driver is ready to serve, all with the same two instants; no row else changes but by deadline |
| FeedAnswers.DiscoverOpensTheBest | backend/internal/offer/discovery_postgres.go:49-60 | Exactly as many as fit under the limit are opened, each ranking by distance, age and id before every ride left out |
| FeedAnswers.DiscoverShows | backend/internal/offer/discovery_postgres.go:73-132 | Every column of every item equals its row's, window and ride deadlines included; one item per ride; each ride can be taken now |
| FeedAnswers.DiscoverShowsAll | backend/internal/offer/discovery_postgres.go:73-105 | Within the limit every ride the driver can take is shown |
| DriverAnswers.StartAnswers | backend/internal/trip/postgres_repository.go:76-115 | Each trip status has its answer; starting writes the instant and nothing else |
| DriverAnswers.CompleteAnswers | backend/internal/trip/postgres_repository.go:117-160 | Each trip status has its answer; completing writes the instant and nothing else |
| DriverAnswers.ConfirmCashAnswers | backend/internal/trip/postgres_repository.go:162-205 | Each trip status has its answer; settling records cash, instant and driver and nothing else |
| DriverAnswers.ExpirePresenceWrites | backend/internal/driver/presence.go:14-40 | Exactly those in scope, not skipped, whose position is missing or stale are offline afterwards |
| DriverAnswers.FindAnswers | backend/internal/driver/postgres_repository.go:16-40 | Every stored driver is found, with the earliest registered vehicle, smallest identifier among equals |
| DriverAnswers.SetOnlineAnswers | backend/internal/driver/postgres_repository.go:95-153 | The exact condition and the refusal of each failing one; only that profile's two columns change |
| DriverAnswers.OperatingStateAnswers | backend/internal/driver/selection.go:37-68 | The selection, whether it is an own vehicle that serves, and whether it may change |
| DriverAnswers.SelectOperationAnswers | backend/internal/driver/selection.go:70-117 | The exact condition and each refusal; a lapsed presence ends even when refused; nothing else changes |
| DriverAnswers.UpdateLocationAnswers | backend/internal/driverlocation/postgres_repository.go:16-55 | The position is stored at this instant, and a driver whose last one was stale is offline |
| DriverAnswers.EnrollWrites | backend/internal/driveronboarding/postgres_repository.go:279-336 | The rows that an approval adds for a driver with and without a profile |
| Ordering.OrderBy | backend/internal/offer/discovery_postgres.go:103-104 | Returns every row once, strictly ascending |
| Ordering.OrderedIsUnique | backend/internal/offer/rider_postgres.go:73-74 | A strict order determines the sequence scanned |
| Database.Store.Rollback | backend/internal/marketplace/assignment_postgres.go:21 | Restores the four market tables exactly |
| Database.Store.Expire | backend/internal/marketplace/lifecycle.go:21-64 | The loop over the statements applies every deadline, exactly |
| Database.Store.Market | backend/internal/offer/postgres_repository.go:19-48 | Computes the quote of the specification |
| Database.Store.LockMarketplaceEligible | backend/internal/driver/marketplace_postgres.go:14-53 | Lock then re-evaluate decides eligibility exactly |
| Database.Store.CheckOffer | backend/internal/offer/postgres_repository.go:71-154 | The checks in order give the specified refusal or row |
| Database.Store.Upsert | backend/internal/offer/postgres_repository.go:50-186 | Every table and the reply equal Transactions.Upsert on the old tables, the cross-table invariant is kept, a refusal restores all tables |
| Database.Store.Submit | backend/internal/offer/offer.go:126-141 | Every table and the reply equal Transactions.Submit, whose amount, columns and exact condition are OfferAnswers.SubmitStores and SubmitSucceedsIff; invariant kept |
| Database.Store.AcceptProposed | backend/internal/offer/offer.go:143-154 | Every table and the reply equal Transactions.AcceptProposed, that is a submission of the quoted amount (OfferAnswers.AcceptProposedIsSubmit); invariant kept |
| Database.Store.GetOffer | backend/internal/offer/postgres_repository.go:302-326 | Replies the stored row, whatever its deadlines, or not found |
| Database.Store.Skip | backend/internal/offer/postgres_repository.go:188-222 | Skips exactly an open, unexpired window of a live ride; every table equals the specification; invariant kept; a refusal restores all tables |
| Database.Store.Reject | backend/internal/offer/postgres_repository.go:224-300 | Pending becomes rejected with its opportunity, a repeat replies the stored row, anything else restores all tables; equal to Transactions.Reject, whose exact condition is RiderAnswers.RejectAnswers; invariant kept |
| Database.Store.CheckSelection | backend/internal/marketplace/assignment_postgres.go:32-110 | The checks in order give the specified refusal |
| Database.Store.InsertTrip | backend/internal/marketplace/assignment_postgres.go:208-226 | Inserts iff neither the ride key nor the active-driver index refuses |
| Database.Store.MarkRideAccepted | backend/internal/marketplace/assignment_postgres.go:228-245 | Updates one row iff the ride is still requested and unexpired |
| Database.Store.Assign | backend/internal/marketplace/assignment_postgres.go:111-138 | The writes in order reach the specified state; neither key refuses anything |
| Database.Store.SelectOffer | backend/internal/marketplace/assignment_postgres.go:16-143 | Every table and the reply equal Transactions.SelectOffer on the old tables, the cross-table invariant is kept, a refusal restores all tables |
| Database.Store.LockRide | backend/internal/cancellation/postgres_repository.go:128-149 | Finds the ride, for the rider when given |
| Database.Store.LockTrip | backend/internal/cancellation/postgres_repository.go:151-190 | Finds the trip, for the driver when given |
| Database.Store.CancelLocked | backend/internal/cancellation/postgres_repository.go:211-277 | Specified writes and result when it succeeds, specified error otherwise |
| Database.Store.Cancel | backend/internal/cancellation/postgres_repository.go:46-73 | Specified state and result by ride status |
| Database.Store.CancelByRider | backend/internal/cancellation/postgres_repository.go:27-74 | Every table and the reply equal Transactions.CancelByRider, recorded as the rider's by RiderAnswers.CancelByRiderAnswers; invariant kept; a refusal restores all tables |
| Database.Store.CancelByDriver | backend/internal/cancellation/postgres_repository.go:76-126 | Every table and the reply equal Transactions.CancelByDriver, recorded as the driver's by RiderAnswers.CancelByDriverAnswers; invariant kept; a refusal restores all tables |
| Database.Store.Start | backend/internal/trip/postgres_repository.go:76-115 | The trip row, the rest of the tables and the reply equal the specification; invariant kept |
| Database.Store.Complete | backend/internal/trip/postgres_repository.go:117-160 | The trip row, the rest of the tables and the reply equal the specification; invariant kept |
| Database.Store.ConfirmCashCollected | backend/internal/trip/postgres_repository.go:162-205 | The trip row, the rest of the tables and the reply equal the specification; invariant kept |
| Database.Store.ExpirePresenceRows | backend/internal/driver/presence.go:18-39 | The loop takes offline exactly the profiles in scope without a fresh position |
| Database.Store.ExpirePresence | backend/internal/driver/presence.go:10-12 | The sweep over all drivers, minus rows skipped as locked |
| Database.Store.FindByUserID | backend/internal/driver/postgres_repository.go:16-40 | Expires the driver's presence, then replies the profile with the driver's first vehicle by creation and id, or not found |
| Database.Store.SetOnline | backend/internal/driver/postgres_repository.go:95-153 | Online only with an owned, serving vehicle, capability, fresh position and no active trip; equal to Transactions.SetOnline; invariant kept |
| Database.Store.SelectOperation | backend/internal/driver/selection.go:70-117 | Equal to Transactions.SelectOperation: presence expiry survives a refusal, a selection changes only offline and without active trip; invariant kept |
| Database.Store.UpsertCurrentLocation | backend/internal/driverlocation/postgres_repository.go:16-55 | Clears a lapsed presence first, then stores the position |
| Database.Store.CreateRide | backend/internal/ride/postgres_repository.go:23-77 | Equal to Transactions.CreateRide: refused service, constraint, or a fresh requested ride; invariant kept |
| Database.Store.Discover | backend/internal/offer/discovery_postgres.go:11-140 | New windows and item set are those of Transactions.Discover, fixed row by row in FeedAnswers; items nearest first, then oldest |
| Database.Store.ListForRider | backend/internal/offer/rider_postgres.go:12-131 | Item set is that of Transactions.ListForRider, fixed item by item in RiderAnswers.ListAnswers; selectable first, then cheapest, nearest with unknown distances last, oldest |
| Database.Store.GetCurrentTrip | backend/internal/drivertrip/postgres_repository.go:17-73 | Returns the current trip, or none iff there is none |
| Interleaving.CheckKeepsTxn | backend/internal/marketplace/assignment_postgres.go:32-110 | A check adds its fact and keeps the earlier ones |
| Interleaving.WriteKeepsTxn | backend/internal/marketplace/assignment_postgres.go:111-138 | A write keeps every fact already checked |
| Interleaving.CommitKeepsOther | backend/internal/marketplace/assignment_postgres.go:139-141 | What one transaction commits breaks no check that another has made |
| Interleaving.ElsewhereKeepsTxn | backend/internal/driver/marketplace_postgres.go:11-52 | Nothing that respects the row locks breaks a check already made |
| Interleaving.ActKeepsInv | backend/internal/marketplace/assignment_postgres.go:16-143 | Every statement, sweep step, commit, rollback and outside change keeps the system invariant |
| Interleaving.AssignmentsAreExclusive | backend/internal/marketplace/assignment_postgres.go:32-57 | Under every interleaving of any number of assignments: at most one trip per ride and one active trip per driver |
| Interleaving.UniqueKeysNeverFire | backend/internal/marketplace/assignment_postgres.go:208-226 | At each insert no committed or uncommitted row has the ride or the active driver |
| Interleaving.CommitAssignsTheRide | backend/internal/marketplace/assignment_postgres.go:111-138 | A commit accepts its ride, offer and opportunity, leaves no competitor pending, touches no other ride |
| Refinement.ActKeepsRefinementInv | backend/internal/marketplace/assignment_postgres.go:111-138 | Every step keeps each in-flight write an exact column-by-column change of the row it is based on |
| Refinement.ReachableSystemsRefine | backend/internal/marketplace/assignment_postgres.go:16-143 | So does every interleaving, as long as nothing elsewhere stores an offer on its driver's own ride |
| Refinement.CommitRefinesAtomicSelection | backend/internal/marketplace/assignment_postgres.go:16-143 | Each commit is one the atomic selection accepts, with the same reply, and the committed tables mean what it leaves, up to the pair's decision and assignment times |
| Progress.UncontendedSelectionCommits | backend/internal/marketplace/assignment_postgres.go:16-143 | With nobody holding its rows, an assignment runs to its commit iff the atomic selection succeeds on the committed rows, replies the same trip and leaves tables of the same meaning |
| Calculation.Validate | backend/internal/pricing/pricing.go:50-60 | True iff every field is in its range |
| Calculation.Calculate | backend/internal/pricing/calculate.go:5-37 | Errors in order; otherwise the nearest multiple of the increment to the exact rational fare, ties up, at least the minimum, at most the maximum |
| Calculation.NearestIsClosest | backend/internal/pricing/calculate.go:23-29 | No other multiple is closer, and on a tie the charged one is higher |
| Calculation.ChargeIsUnique | backend/internal/pricing/calculate.go:23-36 | The stated outcome is the only one |
| Calculation.ChargeIsClose | backend/internal/pricing/calculate.go:25-36 | In (0, 10^12], and within half an increment of the exact fare when above the minimum |
| Calculation.ChargeIsMonotone | backend/internal/pricing/calculate.go:16-35 | Monotone in distance, duration, every rate and the minimum; once out of range, always out of range |
| PolicyHistory.MaxIsCount | backend/internal/pricing/postgres_repository.go:87-90 | MAX(version) is the number of versions of the key |
| PolicyHistory.VersionsAreConsecutive | backend/internal/pricing/postgres_repository.go:87-91 | The versions of a key are exactly 1 to n |
| PolicyHistory.VersionsAreDistinct | backend/internal/pricing/postgres_repository.go:87-91 | No two rows of a key share a version |
| PolicyHistory.CommitKeepsOther | backend/internal/pricing/postgres_repository.go:53-68 | A commit leaves what every other transaction has read intact, by the service lock alone |
| PolicyHistory.ActKeepsInv | backend/internal/pricing/postgres_repository.go:38-128 | Every statement, commit, rollback and relisting keeps the system invariant |
| PolicyHistory.HistoryIsAppendOnly | backend/internal/pricing/postgres_repository.go:69-103 | Under every interleaving no version or priced request is ever altered or removed |
| PolicyHistory.PublishedHistoryIsSound | backend/internal/pricing/postgres_repository.go:38-128 | Versions are 1 to n, pointers name versions of their own key, snapshots are the stored version the rider named |
| PolicyHistory.CommittedSnapshotIsStillCurrent | backend/internal/ride/postgres_pricing.go:29-67 | A priced creation commits only with the policy still current at its commit, named by the rider, of an open service |
| PolicyEffects.PublishTakesEffect | backend/internal/pricing/postgres_repository.go:87-101 | A committed publication is the last version row, numbered next, with its draft, rule and reviewer, and the key's current policy; no other pointer or row changes |
| PolicyEffects.DisableTakesEffect | backend/internal/pricing/postgres_repository.go:104-128 | A committed withdrawal found the policy it expected current, and leaves that pointer empty and all else unchanged |
| PolicyEffects.CreateTakesEffect | backend/internal/ride/postgres_pricing.go:29-67 | A committed creation adds one request with the proposed fare and the current policy as its snapshot; nothing else changes |
| PolicyEffects.UncontendedCommits | backend/internal/pricing/postgres_repository.go:38-128 | Without a conflicting transaction in flight, each job runs to its commit iff the committed rows meet its exact condition |
| PolicyEffects.PublishedIsNameable | backend/internal/pricing/postgres_repository.go:95 | After a publication a creation commits iff it names that policy |
| PolicyEffects.WithdrawnIsNotNameable | backend/internal/pricing/postgres_repository.go:116 | After a withdrawal no creation commits, whatever it names |
| MoneyText.ParsePKR | backend/internal/pricing/amount.go:8-44 | Accepts exactly the texts of the grammar worth at most 10^12, at exactly that value |
| MoneyText.DenotesOnce | backend/internal/pricing/amount.go:10-39 | A text of the grammar is worth one amount only |
| MoneyText.PrintAndParse | backend/internal/httpapi/admin_pricing_policy.go:124 | Every amount in range prints to a text that parses back to it |
| MoneyText.PrintsAlikeIffEqual | backend/internal/httpapi/admin_pricing_policy.go:124 | Amounts print alike iff they are equal |
| Onboarding.SubmitKeepsInv | backend/internal/driveronboarding/postgres_repository.go:102-163 | Submitting keeps the registry invariant |
| Onboarding.ApproveKeepsInv | backend/internal/driveronboarding/postgres_repository.go:255-336 | Approving keeps the registry invariant |
| Onboarding.RejectKeepsInv | backend/internal/driveronboarding/postgres_repository.go:338-378 | Rejecting keeps the registry invariant |
| Onboarding.RegistryMatchesApprovals | backend/internal/driveronboarding/postgres_repository.go:255-336 | After any run vehicles and approved applications correspond one to one, field for field, each with one enrollment; a profile exists iff an application was approved |
| Onboarding.ApprovalNeverConflicts | backend/internal/driveronboarding/postgres_repository.go:284-295 | An approval never meets the plate key |
| Onboarding.ProfileDecidesKind | backend/internal/driveronboarding/postgres_repository.go:61-80 | An earlier approval implies an equally early profile, so the profile alone decides the kind |
| Onboarding.DerivedKindDiffersIff | backend/internal/driveronboarding/postgres_repository.go:380-391 | A later read derives another kind iff a first-time applicant's profile was created at the instant of submission |
| Onboarding.DerivedKindIsStable | backend/internal/driveronboarding/postgres_repository.go:61-80 | With strictly increasing readings every later read derives the kind told at submission |
| Onboarding.EqualReadingsChangeTheKind | backend/internal/driveronboarding/postgres_repository.go:417-444 | A run with two equal readings after which the kind has changed |
| OnboardingDatabase.Store.CreateApplication | backend/internal/driveronboarding/postgres_repository.go:102-163 | Every table and the reply equal Onboarding.CreateApplication; registry invariant kept |
| OnboardingDatabase.Store.ApproveApplication | backend/internal/driveronboarding/postgres_repository.go:255-319 | Every table and the reply equal Onboarding.ApproveApplication; registry invariant kept; never a plate conflict |
| OnboardingDatabase.Store.RejectApplication | backend/internal/driveronboarding/postgres_repository.go:338-378 | Every table and the reply equal Onboarding.RejectApplication; registry invariant kept |
| OnboardingDatabase.Store.LatestApplication | backend/internal/driveronboarding/postgres_repository.go:60-100 | The last submission, ties by id, with the exact condition under which its kind has changed |
| OnboardingAnswers.SubmissionAnswers | backend/internal/driveronboarding/postgres_repository.go:102-163 | Accepted iff a known user, no own vehicle with the plate and nothing awaiting review; the row stored and the kind told; the refusal for each other case |
| OnboardingAnswers.ApprovalAnswers | backend/internal/driveronboarding/postgres_repository.go:255-336 | Approved iff it awaits review; the decision's columns, the vehicle, its enrollment and the profile it makes |
| OnboardingAnswers.RejectionAnswers | backend/internal/driveronboarding/postgres_repository.go:338-378 | Rejected iff it awaits review, with the reason, reviewer and time given, and nothing else changed |
| OnboardingAnswers.ReviewsAreFinal | backend/internal/driveronboarding/postgres_repository.go:255-378 | A decided application keeps its decision, reason, reviewer and time in every continuation |
| RateLimit.UserWindowLimiter.constructor | backend/internal/httpapi/location_search_limiter.go:20-29 | A non-positive limit becomes 60; the window is one minute; no entries |
| RateLimit.UserWindowLimiter.Allow | backend/internal/httpapi/location_search_limiter.go:31-49 | Entries and answer equal the decision function that the bounds below are proved about |
| RateLimit.AtMostTwiceTheLimit | backend/internal/httpapi/location_search_limiter.go:38-48 | Every half-open interval one window long admits at most 2 * limit - 1 calls of a user |
| RateLimit.DenialsAreEarned | backend/internal/httpapi/location_search_limiter.go:38-48 | Whoever is denied has had the full limit admitted within the window length ending with the denied call |
| RateLimit.TheBoundIsMet | backend/internal/httpapi/location_search_limiter.go:38-48 | For every limit, user, start and window of at least two instants, calls that reach that bound |
| RateLimit.UsersAreIndependent | backend/internal/httpapi/location_search_limiter.go:38-48 | A user's answers are those of the same calls with nobody else around |
| VehicleListing.ListVehicles | backend/internal/driver/postgres_repository.go:62-92 | One entry per vehicle in order of first rows, with all and only its own grants in row order |
| VehicleListing.FirstIsListed | backend/internal/driver/postgres_repository.go:80-86 | Each vehicle's first row is listed, after the first rows before it |
| VehicleListing.ListedIsFirst | backend/internal/driver/postgres_repository.go:80-86 | Each entry is the first row of its vehicle |
| VehicleListing.GrantIsListed | backend/internal/driver/postgres_repository.go:87-92 | Each granted row is listed under its vehicle, right after the grants of earlier rows |
| VehicleListing.ListedIsGrant | backend/internal/driver/postgres_repository.go:87-92 | Each listed grant is a row's of that vehicle, in its place |
| VehicleListing.FirstsDistinct | backend/internal/driver/postgres_repository.go:80-86 | No vehicle is listed twice |

## Left out

- Handlers, routing, templates, JSON shapes, status codes and origin checks: per-branch facts only.
- Identity providers, place search, route clients, retries and caches: foreign calls; route metrics are arbitrary integers.
- The haversine SQL: floating-point trigonometry; only its use as a sort key is modelled.
- Deadlock detection and lock waiting time: progress is claimed of uncontended transactions, safety of all.
- Overlapping Discover transactions: they take no driver lock, so the limit of fifty windows is claimed for atomic ones only.
- NOW() against statement_timestamp() inside one atomic transaction: one instant stands for both.
- Edits of tables that no application step makes, such as deleting vehicles, enrollments or capabilities.
- Migrated rows with null fares or contexts: runs start from empty tables. A ride may still be created without a fare.
- Destinations, route metrics and fields of views that no decision reads.
- The trimming and case folding of service codes, currencies and review names before a publication or submission.
- Input validation of locations, timing policies, applications and names, and the service methods that only delegate.
- The trip history list and the pending-application list, which repeat the modelled queries with another filter.
- Interleaving: the pointer row's own lock in the pricing model, and gradual acquisition of competing rows' locks in the two
  closing statements, which here take effect at the instant the last lock is held.
- Printing of negative amounts: none is ever stored.
- The updated_by and updated_at columns of the current-policy pointer, which no decision reads.
- Discovery's scan error on a null fare: the branch is proved unreachable, so the method has no error result.
- The limiter's mutex and a nil limiter: calls are sequential on one object.
