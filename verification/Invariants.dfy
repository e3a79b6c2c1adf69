/** The cross-table invariant of the marketplace. */
module Invariants {
  import opened Base
  import opened MarketState
  import opened Expiry
  import opened Fares
  import opened Transactions

  function TripRowOf(s: State, r: RideId): Option<Trip> {
    if r in s.trips then Some(s.trips[r]) else None
  }

  function OfferRowOf(s: State, k: Pair): Option<Offer> {
    if k in s.offers then Some(s.offers[k]) else None
  }

  /** The pair holds the ride's trip, cancelled later or not. */
  predicate Won(s: State, k: Pair) {
    k.ride in s.trips && s.trips[k.ride].driver == k.driver
  }

  // ---- Row conditions ----

  /** A ride's status agrees with its trip and its cancellation columns. */
  predicate RideAgrees(ride: Ride, trip: Option<Trip>) {
    && FareAllowed(ride.fare)
    && ride.expiresAt > ride.createdAt
    && match ride.status
       case RideRequested => trip.None? && ride.cancellation.None?
       case RideExpired => trip.None? && ride.cancellation.None?
       case RideAccepted => trip.Some? && !trip.value.status.TripCancelled? && ride.cancellation.None?
       case RideCancelled =>
         && ride.cancellation.Some?
         && (trip.Some? ==>
               && trip.value.status.TripCancelled?
               && trip.value.cancelledAt == Some(ride.cancellation.value.at))
  }

  /** A pair's opportunity and offer agree with each other, with the ride and with its trip. */
  predicate PairAgrees(o: Opportunity, offer: Option<Offer>, closed: bool, won: bool) {
    && (o.status.OpportunityAccepted? <==> won)
    && match o.status
       case Open => offer.None?
       case DriverSkipped => offer.None?
       case WindowExpired => offer.None?
       case Offered =>
         offer.Some? && (offer.value.status.Pending? || offer.value.status.Expired?
                         || (offer.value.status.OfferClosed? && closed))
       case RiderRejected => offer.Some? && offer.value.status.Rejected?
       case OfferExpired => offer.Some? && offer.value.status.Expired?
       case OpportunityAccepted => offer.Some? && offer.value.status.OfferAccepted?
       case OpportunityClosed =>
         closed && (offer.None? || offer.value.status.Pending? || offer.value.status.Expired?
                    || offer.value.status.OfferClosed?)
  }

  /** The money terms of an offer: the ride's currency and 90% to 130% of its proposed fare. */
  predicate TermsAgree(offer: Offer, ride: Ride) {
    && ride.fare.Some?
    && offer.currency == ride.fare.value.currency
    && 90 * ride.fare.value.amount <= 100 * offer.amount <= 130 * ride.fare.value.amount
    && offer.context.fare == Money(offer.amount, offer.currency)
    && offer.context.service == ride.service
    && offer.expiresAt > offer.createdAt
    && (offer.decidedAt.None? <==> offer.status.Pending?)
  }

  predicate TripAgrees(trip: Trip) {
    && (trip.completedAt.Some? <==> trip.status.Completed?)
    && (trip.cancelledAt.Some? <==> trip.status.TripCancelled?)
    && (trip.status.Assigned? ==> trip.startedAt.None?)
    && (trip.status.InProgress? || trip.status.Completed? ==> trip.startedAt.Some?)
    && (if trip.settlement.collected
        then trip.status.Completed? && trip.settlement.means == Some("cash") && trip.settlement.at.Some?
             && trip.settlement.confirmedBy == Some(trip.driver)
        else trip.settlement == UNSETTLED)
  }

  // ---- The tables ----

  ghost predicate RidesOk(s: State) {
    forall r | r in s.rides :: RideAgrees(s.rides[r], TripRowOf(s, r))
  }

  predicate OpportunityOk(s: State, k: Pair)
    requires k in s.opportunities
  {
    var o := s.opportunities[k];
    && k.ride in s.rides
    && k.driver != s.rides[k.ride].rider
    && s.rides[k.ride].fare.Some?
    && k.driver in s.fleet.capable
    && o.visibleUntil > o.openedAt
    && (o.respondedAt.None? <==> o.status.Open?)
    && PairAgrees(o, OfferRowOf(s, k), RideClosed(s.rides, k.ride), Won(s, k))
  }

  predicate OfferOk(s: State, k: Pair)
    requires k in s.offers
  {
    k in s.opportunities && k.ride in s.rides && TermsAgree(s.offers[k], s.rides[k.ride])
  }

  ghost predicate PairsOk(s: State) {
    && (forall k | k in s.opportunities :: OpportunityOk(s, k))
    && (forall k | k in s.offers :: OfferOk(s, k))
  }

  predicate TripOk(s: State, r: RideId)
    requires r in s.trips
  {
    var k := Pair(r, s.trips[r].driver);
    && r in s.rides
    && s.trips[r].rider == s.rides[r].rider
    && k in s.offers && k in s.opportunities
    && s.trips[r].context == s.offers[k].context
    && TripAgrees(s.trips[r])
  }

  ghost predicate TripsOk(s: State) {
    forall r | r in s.trips :: TripOk(s, r)
  }

  /** One active trip per driver, assigned last, with the vehicle the driver has selected. */
  ghost predicate DriversOk(s: State) {
    && (forall r | r in s.trips && ActiveTrip(s.trips[r]) ::
          && s.trips[r].driver in s.fleet.selections
          && s.fleet.selections[s.trips[r].driver] == s.trips[r].context.vehicle)
    && (forall r, q | r in s.trips && q in s.trips && r != q
          && ActiveTrip(s.trips[r]) && s.trips[r].driver == s.trips[q].driver ::
          !ActiveTrip(s.trips[q]) && s.trips[q].assignedAt <= s.trips[r].assignedAt)
  }

  ghost predicate FleetOk(f: Fleet) {
    && (forall d | d in f.selections ::
          f.selections[d] in f.vehicles && f.vehicles[f.selections[d]].owner == d)
    && (forall v | v in f.vehicles :: f.vehicles[v].owner in f.profiles)
    && (forall d | d in f.profiles :: OwnsVehicle(f, d) && (f.profiles[d].online ==> f.profiles[d].status.Active?))
    && f.positions.Keys <= f.profiles.Keys
  }

  ghost predicate InPast(s: State, now: Time) {
    && (forall r | r in s.trips :: s.trips[r].assignedAt <= now)
    && (forall d | d in s.fleet.positions :: s.fleet.positions[d].updatedAt <= now)
  }

  ghost predicate Inv(s: State, now: Time) {
    && RidesOk(s) && PairsOk(s) && TripsOk(s) && DriversOk(s)
    && FleetOk(s.fleet) && PolicyAllowed(s.policy) && InPast(s, now)
  }

  lemma InvLater(s: State, now: Time, later: Time)
    requires Inv(s, now) && now <= later
    ensures Inv(s, later)
  {
  }
}
