/** What the invariant says to a reader of the tables, and the error branches it rules out. */
module Lifecycle {
  import opened Base
  import opened MarketState
  import opened Expiry
  import opened Fares
  import opened Transactions
  import opened Invariants
  import opened Preservation
  import opened Evolution
  import opened ReadPath
  import opened Discovery
  import opened Runs
  import opened Histories

  /** A ride's status is exactly what its trip says. */
  lemma RideStatusFollowsTrip(s: State, now: Time, r: RideId)
    requires Inv(s, now)
    ensures r in s.rides && s.rides[r].status.RideAccepted? <==> r in s.trips && !s.trips[r].status.TripCancelled?
    ensures r in s.trips ==>
      && r in s.rides
      && (s.rides[r].status.RideCancelled? <==> s.trips[r].status.TripCancelled?)
      && (s.rides[r].status.RideCancelled? ==>
            s.rides[r].cancellation.Some? && s.trips[r].cancelledAt == Some(s.rides[r].cancellation.value.at))
      && !s.rides[r].status.RideRequested? && !s.rides[r].status.RideExpired?
      && !(s.trips[r].completedAt.Some? && s.trips[r].cancelledAt.Some?)
  {
    hide PairsOk, DriversOk, FleetOk, FareAllowed;
    if r in s.trips {
      assert TripOk(s, r);
      assert RideAgrees(s.rides[r], Some(s.trips[r]));
    } else if r in s.rides {
      assert RideAgrees(s.rides[r], None);
    }
  }

  /** An offer is accepted exactly when its opportunity is, and exactly when the ride's trip is that driver's. */
  lemma AcceptedPairHoldsTheTrip(s: State, now: Time, k: Pair)
    requires Inv(s, now)
    ensures k in s.offers && s.offers[k].status.OfferAccepted?
       <==> k in s.opportunities && s.opportunities[k].status.OpportunityAccepted?
    ensures k in s.offers && s.offers[k].status.OfferAccepted? <==> Won(s, k)
  {
    hide RidesOk, DriversOk, FleetOk;
    if k in s.offers { assert OfferOk(s, k); }
    if k in s.opportunities { assert OpportunityOk(s, k); }
    if k.ride in s.trips {
      assert TripOk(s, k.ride);
      assert Won(s, k) ==> k == Pair(k.ride, s.trips[k.ride].driver);
    }
  }

  /** While a trip is active, its driver has no other active trip and operates the captured vehicle. */
  lemma ActiveTripBindsDriver(s: State, now: Time, r: RideId)
    requires Inv(s, now) && r in s.trips && ActiveTrip(s.trips[r])
    ensures var d := s.trips[r].driver;
            && d in s.fleet.selections && s.fleet.selections[d] == s.trips[r].context.vehicle
            && forall q | q in s.trips && q != r && s.trips[q].driver == d ::
                 !ActiveTrip(s.trips[q]) && s.trips[q].assignedAt <= s.trips[r].assignedAt
  {
    hide RidesOk, PairsOk, TripsOk, FleetOk;
  }

  // ---- Repeats ----

  /** Repeating a successful step of a trip later replies the same and writes nothing. */
  lemma ExecutionRepeats(s: State, now: Time, later: Time, r: RideId, d: UserId)
    requires Inv(s, now)
    ensures var o := Start(s, now, r, d); o.result.Ok? ==> Start(o.state, later, r, d) == o
    ensures var o := Complete(s, now, r, d); o.result.Ok? ==> Complete(o.state, later, r, d) == o
    ensures var o := ConfirmCashCollected(s, now, r, d); o.result.Ok? ==> ConfirmCashCollected(o.state, later, r, d) == o
  {
    hide Inv;
    if r in s.trips { TripRowAgrees(s, now, r); }
  }

  /** After a cancellation, the same party cancelling again gets the first answer, whoever sweeps in between. */
  lemma CancelRepeats(s: State, now: Time, later: Time, r: RideId, u: UserId)
    requires Inv(s, now) && now <= later
    ensures var o := CancelByRider(s, now, r, u); o.result.Ok? ==> CancelByRider(o.state, later, r, u).result == o.result
    ensures var o := CancelByDriver(s, now, r, u); o.result.Ok? ==> CancelByDriver(o.state, later, r, u).result == o.result
  {
    hide Inv, Settle, Cancel;
    var x := Settle(s, now);
    SettleKeepsInv(s, now, now);
    if r in x.rides {
      CancelRepeatsLocked(s, x, now, later, r, RiderActor);
      CancelRepeatsLocked(s, x, now, later, r, DriverActor);
    }
  }

  lemma CancelRepeatsLocked(s: State, x: State, now: Time, later: Time, r: RideId, actor: Actor)
    requires r in x.rides
    ensures var o := Cancel(s, x, now, r, actor, if r in x.trips then Some(x.trips[r]) else None);
      o.result.Ok? ==>
        var y := Settle(o.state, later);
        && r in y.rides && y.rides[r].rider == x.rides[r].rider
        && (r in y.trips <==> r in x.trips) && (r in x.trips ==> y.trips[r].driver == x.trips[r].driver)
        && Cancel(o.state, y, later, r, actor, if r in y.trips then Some(y.trips[r]) else None).result == o.result
  {
    hide CloseRideOffers, CloseRideOpportunities, SettledOffers, SettledOpportunities;
  }

  // ---- Fares ----

  /** The captured fare is the accepted offer's, within the driver's bounds of the proposed fare. */
  predicate FareKept(s: State, r: RideId, fare: Money) {
    && r in s.trips && r in s.rides && s.rides[r].fare.Some?
    && var k := Pair(r, s.trips[r].driver);
    && k in s.offers && s.offers[k].status.OfferAccepted?
    && s.trips[r].context.fare == fare
    && fare == Money(s.offers[k].amount, s.offers[k].currency)
    && fare.currency == s.rides[r].fare.value.currency
    && 90 * s.rides[r].fare.value.amount <= 100 * fare.amount <= 130 * s.rides[r].fare.value.amount
  }

  lemma TripFare(s: State, now: Time, r: RideId)
    requires Inv(s, now) && r in s.trips
    ensures FareKept(s, r, s.trips[r].context.fare)
  {
    hide RidesOk, DriversOk, FleetOk;
    var k := Pair(r, s.trips[r].driver);
    assert TripOk(s, r);
    assert OfferOk(s, k);
    assert OpportunityOk(s, k);
  }

  /** From the assignment on, no continuation of any run changes a trip's fare or what it was bounded by. */
  lemma FareIsConserved(w: World, run: seq<Step>, metric: Metric, r: RideId)
    requires WorldInv(w) && Runnable(w, run, metric) && r in w.state.trips
    ensures FareKept(w.state, r, w.state.trips[r].context.fare)
    ensures FareKept(After(w, run, metric).state, r, w.state.trips[r].context.fare)
    ensures After(w, run, metric).state.rides[r].fare == w.state.rides[r].fare
  {
    hide Inv, Runnable, FareKept, WithinLimit;
    var y := After(w, run, metric);
    RunKeepsWorldInv(w, run, metric);
    RunEvolves(w, run, metric);
    TripFare(w.state, w.clock, r);
    assert TripEvolves(w.state.trips[r], y.state.trips[r]);
    TripFare(y.state, y.clock, r);
    FareKeptNames(w.state, r);
    assert RideEvolves(w.state.rides[r], y.state.rides[r]);
  }

  lemma FareKeptNames(s: State, r: RideId)
    requires r in s.trips && FareKept(s, r, s.trips[r].context.fare)
    ensures r in s.rides && s.rides[r].fare.Some?
  {
  }

  // ---- Error branches that no reachable state takes ----

  function ErrorOf(reply: Reply): Option<Error> {
    match reply
    case RideReply(Err(e)) => Some(e)
    case QuoteReply(Err(e)) => Some(e)
    case OfferReply(Err(e)) => Some(e)
    case UnitReply(Err(e)) => Some(e)
    case TripReply(Err(e)) => Some(e)
    case ListReply(Err(e)) => Some(e)
    case FeedReply(Err(e)) => Some(e)
    case CancelReply(Err(e)) => Some(e)
    case ProfileReply(Err(e)) => Some(e)
    case OperatingReply(Err(e)) => Some(e)
    case PositionReply(Err(e)) => Some(e)
    case _ => None
  }

  predicate Internal<T>(result: Result<T>) {
    result.Err? && (result.error.InconsistentRow? || result.error.ConstraintViolation?)
  }

  lemma CancelIsConsistent(s: State, x: State, now: Time, r: RideId, actor: Actor)
    requires Inv(x, now) && r in x.rides
    ensures !Internal(Cancel(s, x, now, r, actor, if r in x.trips then Some(x.trips[r]) else None).result)
  {
    hide Inv;
    RideStatusFollowsTrip(x, now, r);
    RideRowAgrees(x, now, r);
  }

  lemma RideRowAgrees(s: State, now: Time, r: RideId)
    requires Inv(s, now) && r in s.rides
    ensures RideAgrees(s.rides[r], TripRowOf(s, r))
  {
    hide PairsOk, TripsOk, DriversOk, FleetOk, RideAgrees;
  }

  lemma CancelsAreConsistent(s: State, now: Time, r: RideId, u: UserId)
    requires Inv(s, now)
    ensures !Internal(CancelByRider(s, now, r, u).result) && !Internal(CancelByDriver(s, now, r, u).result)
  {
    hide Inv, Settle, Cancel;
    var x := Settle(s, now);
    SettleKeepsInv(s, now, now);
    if r in x.rides {
      CancelIsConsistent(s, x, now, r, RiderActor);
      CancelIsConsistent(s, x, now, r, DriverActor);
    }
  }

  lemma ExecutionIsConsistent(s: State, now: Time, r: RideId, d: UserId)
    requires Inv(s, now)
    ensures !Internal(Start(s, now, r, d).result)
    ensures !Internal(Complete(s, now, r, d).result)
    ensures !Internal(ConfirmCashCollected(s, now, r, d).result)
  {
    hide Inv;
    if r in s.trips { TripRowAgrees(s, now, r); }
  }

  /** With a quote of the ride's own fare, the amount CHECK and the unique pair key never fire. */
  lemma OfferIsConsistent(s: State, now: Time, q: Quote, d: UserId, amount: int)
    requires Inv(s, now) && Quoted(s, q)
    ensures !Internal(Submit(s, now, q, d, amount).result) && !Internal(AcceptProposed(s, now, q, d).result)
  {
    hide Inv, Upsert, CurrencyCode;
    RideRowAgrees(s, now, q.ride);
    BoundsMeanPercentages(q.amount, amount);
    BoundsMeanPercentages(q.amount, q.amount);
    if Minimum(q.amount) <= amount <= Maximum(q.amount) { UpsertIsConsistent(s, now, q, d, amount); }
    UpsertIsConsistent(s, now, q, d, q.amount);
  }

  lemma UpsertIsConsistent(s: State, now: Time, q: Quote, d: UserId, amount: int)
    requires Inv(s, now) && Quoted(s, q) && FareAllowed(s.rides[q.ride].fare)
    requires 90 * q.amount <= 100 * amount <= 130 * q.amount
    ensures !Internal(Upsert(s, now, Pair(q.ride, d), amount, Minimum(q.amount), Maximum(q.amount), q.currency).result)
  {
    hide Inv, Settle, Eligible, RideLive;
    assert OfferRowAllowed(amount, q.currency);
  }

  lemma SelectIsConsistent(s: State, now: Time, k: Pair, rider: UserId, version: Time)
    requires Inv(s, now)
    ensures !Internal(SelectOffer(s, now, k, rider, version).result)
  {
    hide Inv, Settle, Eligible, RideLive, OperationMatches;
    SettleKeepsInv(s, now, now);
    if k in Settle(s, now).offers { NoOwnRideOffers(Settle(s, now), now, k); }
  }

  lemma OtherEventsAreConsistent(s: State, now: Time, e: Event, metric: Metric)
    requires DriverSide(e) || e.CreatesRide? || e.Skips? || e.Rejects?
    ensures var error := ErrorOf(Apply(s, now, e, metric).1);
            && error != Some(InconsistentRow)
            && (error == Some(ConstraintViolation) ==> e.CreatesRide?)
  {
    hide Upsert, Submit, AcceptProposed, SelectOffer, Discover, CancelByRider, CancelByDriver,
         Start, Complete, ConfirmCashCollected, Settle, RejectOpportunity,
         ExpirePresence, Enroll, ExpireStatement, Busy, CanGoOnline, RideLive, CanSkip, ServesSomething, FareAllowed;
  }

  /**
   * In a reachable world no event ever meets inconsistent rows or a database constraint: the only
   * constraint that can fire is the one on a ride's own insert.
   */
  lemma NoInternalErrors(w: World, now: Time, e: Event, metric: Metric)
    requires WorldInv(w) && Enabled(w, now, e)
    ensures var error := ErrorOf(Apply(w.state, now, e, metric).1);
            && error != Some(InconsistentRow)
            && (error == Some(ConstraintViolation) ==> e.CreatesRide?)
  {
    hide Inv, WithinLimit, CreateRide, Market, Upsert, Submit, AcceptProposed, Skip, Reject, SelectOffer, ListForRider,
         Discover, CancelByRider, CancelByDriver, Start, Complete, ConfirmCashCollected, SetOnline, SelectOperation,
         UpdateLocation, ExpirePresence, Enroll, ExpireStatement, Quoted, PolicyAllowed;
    InvLater(w.state, w.clock, now);
    match e
    case Submits(q, d, amount) => OfferIsConsistent(w.state, now, q, d, amount);
    case AcceptsProposed(q, d) => OfferIsConsistent(w.state, now, q, d, q.amount);
    case Selects(k, rider, version) => SelectIsConsistent(w.state, now, k, rider, version);
    case Discovers(d) => DiscoverSucceeds(w.state, now, d, DISCOVERY_LIMIT, metric);
    case RiderCancels(r, rider) => CancelsAreConsistent(w.state, now, r, rider);
    case DriverCancels(r, d) => CancelsAreConsistent(w.state, now, r, d);
    case StartsTrip(r, d) => ExecutionIsConsistent(w.state, now, r, d);
    case CompletesTrip(r, d) => ExecutionIsConsistent(w.state, now, r, d);
    case ConfirmsCash(r, d) => ExecutionIsConsistent(w.state, now, r, d);
    case Sweeps(_) =>
    case _ => OtherEventsAreConsistent(w.state, now, e, metric);
  }
}
