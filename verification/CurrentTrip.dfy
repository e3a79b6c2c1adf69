/** The driver's current trip: the latest of the active and the unsettled ones. */
module CurrentTrip {
  import opened Base
  import opened MarketState
  import opened Expiry
  import opened Fares
  import opened Transactions
  import opened Invariants
  import opened Preservation
  import opened Evolution
  import opened Lifecycle
  import opened Runs
  import opened Histories
  import opened Scenarios
  import A = DriverAnswers

  /** What the current-trip query selects: active, or completed and not yet settled. */
  predicate Unfinished(s: State, d: UserId, r: RideId) {
    && r in s.trips && r in s.rides
    && s.trips[r].driver == d
    && (ActiveTrip(s.trips[r]) || (s.trips[r].status.Completed? && !s.trips[r].settlement.collected))
  }

  /** ORDER BY assigned_at DESC, ride_request_id DESC. */
  predicate Later(s: State, a: RideId, b: RideId)
    requires a in s.trips && b in s.trips
  {
    s.trips[a].assignedAt > s.trips[b].assignedAt || (s.trips[a].assignedAt == s.trips[b].assignedAt && a > b)
  }

  /** The row that LIMIT 1 keeps. */
  ghost predicate IsCurrent(s: State, d: UserId, r: RideId) {
    && Unfinished(s, d, r)
    && forall q | Unfinished(s, d, q) && q != r :: Later(s, r, q)
  }

  /** Assigned, under way, or completed with its cash not yet confirmed. */
  predicate OpenTrip(s: State, d: UserId, r: RideId) {
    && r in s.trips && s.trips[r].driver == d
    && (s.trips[r].status == Assigned || s.trips[r].status == InProgress
        || (s.trips[r].status == Completed && s.trips[r].settlement == UNSETTLED))
  }

  lemma UnfinishedIsOpen(s: State, now: Time, d: UserId, r: RideId)
    requires Inv(s, now)
    ensures Unfinished(s, d, r) <==> OpenTrip(s, d, r)
  {
    hide Inv;
    if r in s.trips {
      TripRowAgrees(s, now, r);
      RideStatusFollowsTrip(s, now, r);
    }
  }

  /** The current trip is the open trip of the driver assigned last, the greatest identifier among equals. */
  lemma CurrentMeans(s: State, now: Time, d: UserId, r: RideId)
    requires Inv(s, now)
    ensures IsCurrent(s, d, r)
       <==> && OpenTrip(s, d, r)
            && forall q | q in s.trips && OpenTrip(s, d, q) ::
                 && s.trips[q].assignedAt <= s.trips[r].assignedAt
                 && (s.trips[q].assignedAt == s.trips[r].assignedAt ==> q <= r)
  {
    hide Inv;
    forall q | q in s.trips ensures Unfinished(s, d, q) <==> OpenTrip(s, d, q) { UnfinishedIsOpen(s, now, d, q); }
    if OpenTrip(s, d, r) && forall q | q in s.trips && OpenTrip(s, d, q) ::
         s.trips[q].assignedAt <= s.trips[r].assignedAt && (s.trips[q].assignedAt == s.trips[r].assignedAt ==> q <= r)
    {
      forall q | Unfinished(s, d, q) && q != r ensures Later(s, r, q) { assert OpenTrip(s, d, q); }
    }
    if IsCurrent(s, d, r) {
      forall q | q in s.trips && OpenTrip(s, d, q) ensures q == r || Later(s, r, q) { assert Unfinished(s, d, q); }
    }
  }

  /** A completed trip stays before its driver until the cash is confirmed; then it leaves, and no other trip is affected. */
  lemma SettlementClosesTheTrip(s: State, now: Time, r: RideId, d: UserId, q: RideId)
    requires Inv(s, now)
    ensures var o := Complete(s, now, r, d);
      o.result.Ok? && s.trips[r].status == InProgress ==> Unfinished(o.state, d, r)
    ensures var o := ConfirmCashCollected(s, now, r, d);
      o.result.Ok? ==> !Unfinished(o.state, d, r) && (q != r ==> (Unfinished(o.state, d, q) <==> Unfinished(s, d, q)))
  {
    hide Inv, Complete, ConfirmCashCollected;
    A.CompleteAnswers(s, now, r, d);
    A.ConfirmCashAnswers(s, now, r, d);
    if r in s.trips {
      TripRowAgrees(s, now, r);
      RideStatusFollowsTrip(s, now, r);
    }
  }

  lemma CurrentIsUnique(s: State, d: UserId, a: RideId, b: RideId)
    requires IsCurrent(s, d, a) && IsCurrent(s, d, b)
    ensures a == b
  {
  }

  function UnfinishedTrips(s: State, d: UserId): set<RideId> {
    set r | r in s.trips && Unfinished(s, d, r)
  }

  /** The query returns a row exactly when the driver has an unfinished trip. */
  lemma CurrentExists(s: State, d: UserId)
    ensures (exists r :: IsCurrent(s, d, r)) <==> UnfinishedTrips(s, d) != {}
  {
    if r :| IsCurrent(s, d, r) { assert r in UnfinishedTrips(s, d); }
    if UnfinishedTrips(s, d) != {} {
      var r := LatestOf(s, d, UnfinishedTrips(s, d));
      assert IsCurrent(s, d, r);
    }
  }

  lemma LatestOf(s: State, d: UserId, among: set<RideId>) returns (r: RideId)
    requires among <= UnfinishedTrips(s, d) && among != {}
    ensures r in among && forall q | q in among && q != r :: Later(s, r, q)
    decreases |among|
  {
    var a :| a in among;
    var rest := among - {a};
    assert among == {a} + rest;
    r := a;
    if rest != {} {
      var b := LatestOf(s, d, rest);
      if Later(s, b, a) { r := b; }
      forall q | q in among && q != r ensures Later(s, r, q) {
        assert q == a || q in rest;
        assert q == a || q == b || Later(s, b, q);
        assert Later(s, a, b) || Later(s, b, a);
      }
    }
  }

  /**
   * The active trip is the current one unless an unsettled trip was assigned at the very same instant and
   * has the greater identifier.
   */
  lemma ActiveTripIsCurrentIff(s: State, now: Time, d: UserId, r: RideId)
    requires Inv(s, now) && r in s.trips && s.trips[r].driver == d && ActiveTrip(s.trips[r])
    ensures IsCurrent(s, d, r)
       <==> !exists q: RideId :: Unfinished(s, d, q) && q > r && s.trips[q].assignedAt == s.trips[r].assignedAt
  {
    hide Inv;
    RideStatusFollowsTrip(s, now, r);
    ActiveTripBindsDriver(s, now, r);
  }

  /**
   * Equal instants can hide the active trip behind a completed one, in a run from empty tables: the driver is
   * assigned ride 2, completes it, and is assigned ride 1, all at one instant.
   */
  lemma EqualInstantsHideTheActiveTrip(ttl: int, metric: Metric)
    requires 5 <= ttl <= 60
    ensures Runnable(EmptyWorld(Policy(ttl), 0), TIED_RUN, metric)
    ensures var w := After(EmptyWorld(Policy(ttl), 0), TIED_RUN, metric);
            && Inv(w.state, w.clock)
            && 1 in w.state.trips && ActiveTrip(w.state.trips[1]) && w.state.trips[1].driver == 9
            && IsCurrent(w.state, 9, 2) && !IsCurrent(w.state, 9, 1)
  {
    hide Inv, Apply, Enabled, TIED_RUN, EmptyWorld, WithinLimit;
    RidesTied(ttl, metric);
    ReachableWorldsAreValid(Policy(ttl), 0, TIED_RUN, metric);
    HiddenByCompleted(ttl);
  }

  lemma HiddenByCompleted(ttl: int)
    ensures var s := BothTaken(ttl);
            && 1 in s.trips && ActiveTrip(s.trips[1]) && s.trips[1].driver == 9
            && IsCurrent(s, 9, 2) && !IsCurrent(s, 9, 1)
  {
    var s := BothTaken(ttl);
    assert Unfinished(s, 9, 2) && !Later(s, 1, 2);
  }

  // ---- Strictly increasing instants leave no tie ----

  predicate StrictlyTimed(clock: Time, run: seq<Step>)
    decreases |run|
  {
    run == [] || (clock < run[0].at && StrictlyTimed(run[0].at, run[1..]))
  }

  ghost predicate AssignmentsDistinct(s: State) {
    forall r, q | r in s.trips && q in s.trips && r != q && s.trips[r].driver == s.trips[q].driver ::
      s.trips[r].assignedAt != s.trips[q].assignedAt
  }

  /** At most one new trip, assigned now. */
  ghost predicate AddsOneTrip(a: map<RideId, Trip>, b: map<RideId, Trip>, now: Time) {
    && (forall r | r in b && r !in a :: b[r].assignedAt == now)
    && (forall r, q | r in b && q in b && r !in a && q !in a :: r == q)
  }

  lemma SelectAddsOneTrip(s: State, now: Time, k: Pair, rider: UserId, version: Time)
    ensures AddsOneTrip(s.trips, SelectOffer(s, now, k, rider, version).state.trips, now)
  {
    hide Eligible, RideLive, OperationMatches, SettledOffers, SettledOpportunities, ExpireRides;
  }

  lemma OthersAddNoTrip(s: State, now: Time, e: Event, metric: Metric)
    requires e.Sweeps? ==> e.statement < STATEMENTS
    requires !e.Selects?
    ensures Apply(s, now, e, metric).0.trips.Keys == s.trips.Keys
  {
    hide Settle, Upsert, Skip, Reject, SelectOffer, Discover, CancelByRider, CancelByDriver, ListForRider, Market,
         SetOnline, SelectOperation, UpdateLocation, ExpirePresence, Enroll;
    if DriverSide(e) { DriverSideKeepsMarket(s, now, e, metric); }
    else if e.RiderCancels? { CancelsAddNoTrip(s, now, e.ride, e.rider); }
    else if e.DriverCancels? { CancelsAddNoTrip(s, now, e.ride, e.driver); }
    else { MarketAddsNoTrip(s, now, e, metric); }
  }

  lemma CancelsAddNoTrip(s: State, now: Time, r: RideId, u: UserId)
    ensures CancelByRider(s, now, r, u).state.trips.Keys == s.trips.Keys
    ensures CancelByDriver(s, now, r, u).state.trips.Keys == s.trips.Keys
  {
    hide SettledOffers, SettledOpportunities, ExpireRides, CloseRideOffers, CloseRideOpportunities;
  }

  lemma MarketAddsNoTrip(s: State, now: Time, e: Event, metric: Metric)
    requires e.Sweeps? ==> e.statement < STATEMENTS
    requires !e.Selects? && !e.RiderCancels? && !e.DriverCancels? && !DriverSide(e)
    ensures Apply(s, now, e, metric).0.trips.Keys == s.trips.Keys
  {
    hide SettledOffers, SettledOpportunities, ExpireRides, Eligible, RideLive, CanSkip, RejectOpportunity,
         OpenedBy, Shown, PairsOf, FareAllowed, OfferRowAllowed;
  }

  lemma StepKeepsDistinct(w: World, now: Time, e: Event, metric: Metric)
    requires WorldInv(w) && Enabled(w, now, e) && w.clock < now && AssignmentsDistinct(w.state)
    ensures AssignmentsDistinct(Next(w, now, e, metric).state)
  {
    hide Inv, WithinLimit, Apply, RidesEvolve, OffersEvolve, OpportunitiesEvolve, Quoted, SelectOffer;
    var s, y := w.state, Next(w, now, e, metric).state;
    InvTrips(s, w.clock);
    EventEvolves(s, now, e, metric);
    if e.Selects? { SelectedTripRows(s, now, e, metric); }
    else { OthersAddNoTrip(s, now, e, metric); }
    assert AddsOneTrip(s.trips, y.trips, now);
    forall r | r in s.trips
      ensures r in y.trips && y.trips[r].assignedAt == s.trips[r].assignedAt && y.trips[r].driver == s.trips[r].driver
    {
      assert TripEvolves(s.trips[r], y.trips[r]);
    }
  }

  lemma SelectedTripRows(s: State, now: Time, e: Event, metric: Metric)
    requires e.Selects?
    ensures AddsOneTrip(s.trips, Apply(s, now, e, metric).0.trips, now)
  {
    hide SelectOffer, AddsOneTrip;
    SelectAddsOneTrip(s, now, e.pair, e.rider, e.version);
  }

  lemma {:induction false} RunKeepsDistinct(w: World, run: seq<Step>, metric: Metric)
    requires WorldInv(w) && Runnable(w, run, metric) && StrictlyTimed(w.clock, run) && AssignmentsDistinct(w.state)
    ensures AssignmentsDistinct(After(w, run, metric).state)
    decreases |run|
  {
    hide WorldInv, Apply, AssignmentsDistinct;
    if run != [] {
      NextKeepsWorldInv(w, run[0].at, run[0].event, metric);
      StepKeepsDistinct(w, run[0].at, run[0].event, metric);
      RunKeepsDistinct(Next(w, run[0].at, run[0].event, metric), run[1..], metric);
    }
  }

  /** With strictly increasing instants, the current trip is the active one whenever there is one. */
  lemma ActiveTripIsAlwaysCurrent(policy: TimingPolicy, clock: Time, run: seq<Step>, metric: Metric, r: RideId)
    requires PolicyAllowed(policy) && StrictlyTimed(clock, run) && Runnable(EmptyWorld(policy, clock), run, metric)
    requires var s := After(EmptyWorld(policy, clock), run, metric).state; r in s.trips && ActiveTrip(s.trips[r])
    ensures var s := After(EmptyWorld(policy, clock), run, metric).state; IsCurrent(s, s.trips[r].driver, r)
  {
    hide Inv, Apply, IsCurrent, WithinLimit, PolicyAllowed, StrictlyTimed, Runnable;
    var w := EmptyWorld(policy, clock);
    EmptyWorldInv(policy, clock);
    RunKeepsWorldInv(w, run, metric);
    RunKeepsDistinct(w, run, metric);
    var y := After(w, run, metric);
    ActiveTripIsCurrentIff(y.state, y.clock, y.state.trips[r].driver, r);
  }
}
