/** What each rider request answers and writes, over the columns stored before it. */
module RiderAnswers {
  import opened Base
  import opened MarketState
  import opened Expiry
  import opened Transactions
  import opened Invariants
  import opened Preservation
  import opened Lifecycle
  import opened Meanings

  // ---- Creation ----

  /** A ride is created exactly for a service that is active and visible, with an acceptable fare and a new identifier. */
  lemma CreateRideAnswers(s: State, now: Time, r: RideId, rider: UserId, service: ServiceCode, fare: Option<Money>,
                          pickup: Point)
    ensures var o := CreateRide(s, now, r, rider, service, fare, pickup);
      var listed := service in s.fleet.catalog && s.fleet.catalog[service].active && s.fleet.catalog[service].riderVisible;
      var allowed := fare == None
        || (0 < fare.value.amount <= 1_000_000_000_000 && |fare.value.currency| == 3
            && forall i | 0 <= i < 3 :: 'A' <= fare.value.currency[i] <= 'Z');
      && (o.result.Ok? <==> listed && r !in s.rides && allowed)
      && (o.result == Err(InvalidService) <==> !listed)
      && (o.result.Err? ==> o.state == s && o.result.error in {InvalidService, ConstraintViolation})
      && (o.result.Ok? ==>
            && o.state == s.(rides := s.rides[r := o.result.value])
            && o.result.value.rider == rider && o.result.value.service == service && o.result.value.fare == fare
            && o.result.value.pickup == pickup && o.result.value.createdAt == now
            && o.result.value.expiresAt == now + s.policy.rideTtl * 1_000_000
            && o.result.value.status == RideRequested && o.result.value.cancellation == None)
  {
  }

  // ---- Rejection ----

  predicate Mine(s: State, r: RideId, rider: UserId) {
    r in s.rides && s.rides[r].rider == rider
  }

  predicate LiveOffer(s: State, k: Pair, now: Time) {
    k in s.offers && s.offers[k].status == Pending && now < s.offers[k].expiresAt
  }

  lemma LiveOfferIsOffered(s: State, now: Time, k: Pair)
    requires Inv(s, now) && LiveOffer(s, k, now) && OpenRide(s, k.ride, now)
    ensures k in s.opportunities && s.opportunities[k].status == Offered
    ensures s.offers[k].context.service == s.rides[k.ride].service && k.driver != s.rides[k.ride].rider
  {
    hide RidesOk, TripsOk, DriversOk, FleetOk;
    assert OfferOk(s, k);
    assert OpportunityOk(s, k);
  }

  /** A rider can reject exactly the unexpired pending offers of an open ride of theirs, and again those already rejected. */
  lemma RejectAnswers(s: State, now: Time, k: Pair, rider: UserId)
    ensures var result, mine, live := Reject(s, now, k, rider).result, Mine(s, k.ride, rider), OpenRide(s, k.ride, now);
      && (result.Ok? <==> mine && live && (LiveOffer(s, k, now) || (k in s.offers && s.offers[k].status == Rejected)))
      && (result == Err(RideNotFound) <==> !mine)
      && (result == Err(RideNotOpen) <==> mine && !live)
      && (result == Err(OfferNotFound) <==> mine && live && k !in s.offers)
      && (result.Err? ==> result.error in {RideNotFound, RideNotOpen, OfferNotFound, OfferNotActionable})
      && (result.Err? ==> Reject(s, now, k, rider).state == s)
  {
    hide Settle;
    SweptFrame(s, now);
    SweepKeepsOpenRide(s, now, k);
    if k.ride in s.rides { SweptRide(s, now, k.ride); }
    if k in s.offers { SweptOffer(s, now, k); }
  }

  /** The offer becomes rejected now and so does its opportunity; a repeat replies the stored row and only sweeps. */
  lemma RejectWrites(s: State, now: Time, k: Pair, rider: UserId)
    requires Inv(s, now) && Reject(s, now, k, rider).result.Ok?
    ensures k in s.offers
    ensures var o := Reject(s, now, k, rider);
      if s.offers[k].status == Rejected then o == Tx(Settle(s, now), Ok(s.offers[k]))
      else
        && k in o.state.offers && o.state.offers[k] == o.result.value
        && o.result.value == s.offers[k].(status := Rejected, decidedAt := Some(now), updatedAt := now)
        && k in s.opportunities && k in o.state.opportunities
        && o.state.opportunities[k] == s.opportunities[k].(status := RiderRejected)
        && OnlyPairWritten(s, o.state, now, k)
  {
    hide Inv, Settle;
    SweptFrame(s, now);
    SweepKeepsOpenRide(s, now, k);
    if k in s.offers { SweptOffer(s, now, k); }
    if k in s.opportunities { SweptOpportunity(s, now, k); }
    if LiveOffer(s, k, now) && OpenRide(s, k.ride, now) { LiveOfferIsOffered(s, now, k); }
  }

  // ---- Selection ----

  /** A selection needs the version seen, on an open ride of the rider's, with the driver ready in the offered vehicle. */
  lemma SelectAnswers(s: State, now: Time, k: Pair, rider: UserId, version: Time)
    requires Inv(s, now)
    ensures var result, present, mine := SelectOffer(s, now, k, rider, version).result, k.ride in s.rides, Mine(s, k.ride, rider);
      var live := OpenRide(s, k.ride, now);
      var current := LiveOffer(s, k, now) && s.offers[k].updatedAt == version;
      && (result.Ok? <==> && mine && live && current && DriverReady(s, k.driver, s.rides[k.ride].service, now)
                          && s.fleet.selections[k.driver] == s.offers[k].context.vehicle)
      && (result == Err(MarketNotOpen) <==> !present || (mine && !live))
      && (result == Err(OfferNotActionable) <==> present && (!mine || (live && !current)))
      && (result.Err? ==> result.error in {MarketNotOpen, OfferNotActionable, DriverUnavailable})
      && (result.Err? ==> SelectOffer(s, now, k, rider, version).state == s)
  {
    hide Inv, Settle, Eligible, DriverReady;
    var x := Settle(s, now);
    SweptFrame(s, now);
    SweepKeepsOpenRide(s, now, k);
    if k.ride in s.rides {
      SweptRide(s, now, k.ride);
      SweptDriver(s, now, k.driver, s.rides[k.ride].service);
      EligibleMeans(x, k.driver, s.rides[k.ride].service, now);
    }
    if LiveOffer(s, k, now) && OpenRide(s, k.ride, now) {
      LiveOfferIsOffered(s, now, k);
      SweptOpportunity(s, now, k);
      if DriverReady(s, k.driver, s.rides[k.ride].service, now) { ReadyDriverOperates(s, k.driver, s.rides[k.ride].service, now); }
    }
  }

  lemma ReadyDriverOperates(s: State, d: UserId, service: ServiceCode, now: Time)
    requires DriverReady(s, d, service, now)
    ensures d in s.fleet.selections && Enrollment(s.fleet.selections[d], service) in s.fleet.enrollments
    ensures service in s.fleet.catalog && s.fleet.catalog[service].active
  {
  }

  /** Except the pair's own rows, which an assignment accepts. */
  lemma ClosedExcept(offers: map<Pair, Offer>, opportunities: map<Pair, Opportunity>, k: Pair, offer: Offer, now: Time)
    requires k in offers && k in opportunities && opportunities[k].status == Offered
    ensures CloseRideOffers(offers[k := offer], k.ride, Some(k.driver), now)
         == CloseRideOffers(offers, k.ride, Some(k.driver), now)[k := offer]
    ensures CloseRideOpportunities(AcceptOpportunity(opportunities, k), k.ride, Some(k.driver), now)
         == CloseRideOpportunities(opportunities, k.ride, Some(k.driver), now)[
              k := opportunities[k].(status := OpportunityAccepted)]
  {
    assert forall j: Pair | j.ride == k.ride && j.driver == k.driver :: j == k;
  }

  lemma EndedOffersExcept(s: State, now: Time, k: Pair, offers: map<Pair, Offer>, offer: Offer)
    requires k in s.offers && OffersEnded(s, offers, now, k.ride, Some(k.driver))
    ensures OffersEnded(s, offers[k := offer], now, k.ride, Some(k.driver))
  {
    hide Settle, EndedOffer;
  }

  lemma EndedOpportunitiesExcept(s: State, now: Time, k: Pair, opportunities: map<Pair, Opportunity>, o: Opportunity)
    requires k in s.opportunities && OpportunitiesEnded(s, opportunities, now, k.ride, Some(k.driver))
    ensures OpportunitiesEnded(s, opportunities[k := o], now, k.ride, Some(k.driver))
  {
    hide Settle, EndedOpportunity, OfferOverdue;
  }

  /**
   * A selection records the trip with everything the offer captured, accepts the ride and the pair, and ends every
   * other response on the ride; nothing else but deadlines moves.
   */
  lemma SelectWrites(s: State, now: Time, k: Pair, rider: UserId, version: Time)
    requires Inv(s, now) && SelectOffer(s, now, k, rider, version).result.Ok?
    ensures k.ride in s.rides && k in s.offers && k in s.opportunities
    ensures var o := SelectOffer(s, now, k, rider, version);
      var trip, y := o.result.value, o.state;
      && k.ride in y.trips && y.trips[k.ride] == trip
      && trip.rider == rider && trip.driver == k.driver && trip.status == Assigned && trip.assignedAt == now
      && trip.startedAt == None && trip.completedAt == None && trip.cancelledAt == None
      && trip.context == s.offers[k].context && trip.settlement == Settlement(false, None, None, None)
      && k.ride in y.rides && y.rides[k.ride] == s.rides[k.ride].(status := RideAccepted)
      && OnlyRideWritten(s, y, now, k.ride)
      && k in y.offers
      && y.offers[k] == s.offers[k].(status := OfferAccepted, decidedAt := Some(now), updatedAt := now)
      && k in y.opportunities && y.opportunities[k] == s.opportunities[k].(status := OpportunityAccepted)
      && OffersEnded(s, y.offers, now, k.ride, Some(k.driver))
      && OpportunitiesEnded(s, y.opportunities, now, k.ride, Some(k.driver))
  {
    hide Inv, Settle, OffersEnded, OpportunitiesEnded, CloseRideOffers, CloseRideOpportunities, AcceptOpportunity;
    var x := Settle(s, now);
    SelectAnswers(s, now, k, rider, version);
    LiveOfferIsOffered(s, now, k);
    SweptFrame(s, now);
    SweepKeepsOpenRide(s, now, k);
    SweptOpportunity(s, now, k);
    var offer := DecideOffer(x.offers[k], OfferAccepted, now);
    ClosedExcept(x.offers, x.opportunities, k, offer, now);
    SweptThenClosedOffers(s, now, k.ride, Some(k.driver));
    SweptThenClosedOpportunities(s, now, k.ride, Some(k.driver));
    EndedOffersExcept(s, now, k, CloseRideOffers(x.offers, k.ride, Some(k.driver), now), offer);
    EndedOpportunitiesExcept(s, now, k, CloseRideOpportunities(x.opportunities, k.ride, Some(k.driver), now),
                             x.opportunities[k].(status := OpportunityAccepted));
  }

  // ---- Cancellation ----

  predicate RideLapsed(s: State, r: RideId, now: Time) {
    && r in s.rides
    && (s.rides[r].status == RideExpired || (s.rides[r].status == RideRequested && s.rides[r].expiresAt <= now))
  }

  predicate TripDone(s: State, r: RideId) {
    r in s.trips && s.trips[r].status == Completed
  }

  /** The party that cancelled first stays on record; a first cancellation records this actor and this instant. */
  ghost predicate CancelledBy(s: State, o: Tx<CancelResult>, now: Time, r: RideId, actor: Actor) {
    && o.result.Ok? && r in s.rides && o.result.value.ride == r
    && if s.rides[r].status == RideCancelled then
         && s.rides[r].cancellation == Some(Cancellation(o.result.value.actor, o.result.value.at))
         && o.result.value.trip == (if r in s.trips then Some(s.trips[r]) else None)
         && o.state == Settle(s, now)
       else
         && o.result.value.actor == actor && o.result.value.at == now
         && r in o.state.rides
         && o.state.rides[r] == s.rides[r].(status := RideCancelled, cancellation := Some(Cancellation(actor, now)))
         && (r in o.state.trips <==> r in s.trips)
         && (if r in s.trips
             then o.state.trips[r] == s.trips[r].(status := TripCancelled, cancelledAt := Some(now))
                  && o.result.value.trip == Some(o.state.trips[r])
             else o.result.value.trip == None)
         && OnlyRideWritten(s, o.state, now, r)
         && OffersEnded(s, o.state.offers, now, r, None) && OpportunitiesEnded(s, o.state.opportunities, now, r, None)
  }

  lemma CancelWrites(s: State, now: Time, r: RideId, actor: Actor)
    requires Inv(s, now) && r in s.rides && r in Settle(s, now).rides
    ensures var x := Settle(s, now);
      var o := Cancel(s, x, now, r, actor, if r in x.trips then Some(x.trips[r]) else None);
      if RideLapsed(s, r, now) then o == Tx(s, Err(RideExpiredError))
      else if TripDone(s, r) then o == Tx(s, Err(TripCompletedError))
      else CancelledBy(s, o, now, r, actor)
  {
    hide Inv, Settle, OffersEnded, OpportunitiesEnded, CloseRideOffers, CloseRideOpportunities;
    SweptFrame(s, now);
    SweptRide(s, now, r);
    RideRowAgrees(s, now, r);
    RideStatusFollowsTrip(s, now, r);
    SweptThenClosedOffers(s, now, r, None);
    SweptThenClosedOpportunities(s, now, r, None);
  }

  /** A rider can cancel a ride of theirs unless it has lapsed or its trip is completed, and is recorded as having done so. */
  lemma CancelByRiderAnswers(s: State, now: Time, r: RideId, rider: UserId)
    requires Inv(s, now)
    ensures var o, mine := CancelByRider(s, now, r, rider), Mine(s, r, rider);
      && (o.result.Ok? <==> mine && !RideLapsed(s, r, now) && !TripDone(s, r))
      && (o.result == Err(CancellationNotFound) <==> !mine)
      && (o.result == Err(RideExpiredError) <==> mine && RideLapsed(s, r, now))
      && (o.result == Err(TripCompletedError) <==> mine && !RideLapsed(s, r, now) && TripDone(s, r))
      && (if o.result.Ok? then CancelledBy(s, o, now, r, RiderActor) else o.state == s)
  {
    hide Inv, Settle, Cancel, CancelledBy;
    SweptFrame(s, now);
    if r in s.rides {
      SweptRide(s, now, r);
      CancelWrites(s, now, r, RiderActor);
      CancelledIsOk(s, CancelByRider(s, now, r, rider), now, r, RiderActor);
    }
  }

  lemma CancelledIsOk(s: State, o: Tx<CancelResult>, now: Time, r: RideId, actor: Actor)
    ensures CancelledBy(s, o, now, r, actor) ==> o.result.Ok?
  {
  }

  /** The assigned driver can cancel until the trip is completed, and is recorded as having done so. */
  lemma CancelByDriverAnswers(s: State, now: Time, r: RideId, d: UserId)
    requires Inv(s, now)
    ensures var o, theirs := CancelByDriver(s, now, r, d), r in s.trips && s.trips[r].driver == d;
      && (o.result.Ok? <==> theirs && !TripDone(s, r))
      && (o.result == Err(CancellationNotFound) <==> !theirs)
      && (o.result == Err(TripCompletedError) <==> theirs && TripDone(s, r))
      && (if o.result.Ok? then CancelledBy(s, o, now, r, DriverActor) else o.state == s)
  {
    hide Inv, Settle, Cancel, CancelledBy;
    SweptFrame(s, now);
    RideStatusFollowsTrip(s, now, r);
    if r in s.rides {
      CancelWrites(s, now, r, DriverActor);
      CancelledIsOk(s, CancelByDriver(s, now, r, d), now, r, DriverActor);
    }
  }

  // ---- The comparison view ----

  /** What the rider sees of one offer. */
  ghost predicate ShowsOffer(s: State, now: Time, k: Pair, item: RiderOffer, metric: Metric)
    requires k.ride in s.rides
  {
    var f, ride := s.fleet, s.rides[k.ride];
    && LiveOffer(s, k, now) && item.driver == k.driver && item.offer == s.offers[k]
    && (item.distance.Some? <==> k.driver in f.positions && now - 120_000_000 <= f.positions[k.driver].updatedAt <= now)
    && (item.distance.Some? ==> item.distance.value == metric(f.positions[k.driver].point, ride.pickup))
    && (item.matchesProposedFare
        <==> ride.fare.Some? && item.offer.amount == ride.fare.value.amount && item.offer.currency == ride.fare.value.currency)
    && (item.selectable <==> && DriverReady(s, k.driver, ride.service, now)
                             && f.selections[k.driver] == item.offer.context.vehicle)
  }

  lemma ItemShows(s: State, now: Time, k: Pair, metric: Metric)
    requires Inv(s, now) && OpenRide(s, k.ride, now) && LiveOffer(s, k, now)
    ensures ShowsOffer(s, now, k, RiderItem(s, now, k, metric), metric)
  {
    hide RidesOk, PairsOk, TripsOk, DriversOk;
    assert k in s.opportunities && s.opportunities[k].status == Offered && s.offers[k].context.service == s.rides[k.ride].service
        && k.driver != s.rides[k.ride].rider by { LiveOfferIsOffered(s, now, k); }
    EligibleMeans(s, k.driver, s.rides[k.ride].service, now);
  }

  /** An open ride's rider sees each unexpired pending offer exactly once, and nothing else. */
  lemma ListAnswers(s: State, now: Time, r: RideId, rider: UserId, metric: Metric)
    requires Inv(s, now)
    ensures var list, mine := ListForRider(s, now, r, rider, metric), Mine(s, r, rider);
      && (list.Ok? <==> mine && OpenRide(s, r, now))
      && (list == Err(RideNotFound) <==> !mine || r in s.trips)
      && (list.Err? ==> list.error in {RideNotFound, RideNotOpen})
      && (list.Ok? ==>
            && (forall item | item in list.value :: ShowsOffer(s, now, Pair(r, item.driver), item, metric))
            && (forall k | LiveOffer(s, k, now) && k.ride == r :: exists item | item in list.value :: item.driver == k.driver)
            && (forall a, b | a in list.value && b in list.value && a.driver == b.driver :: a == b))
  {
    hide Inv, RiderItem, ShowsOffer, Listed;
    var list := ListForRider(s, now, r, rider, metric);
    if list.Ok? {
      forall k | k in s.offers && k.ride == r
        ensures Listed(s, now, k) <==> LiveOffer(s, k, now)
        ensures Listed(s, now, k) ==>
          ShowsOffer(s, now, k, RiderItem(s, now, k, metric), metric) && RiderItem(s, now, k, metric).driver == k.driver
      {
        ListedIsLive(s, now, k);
        if LiveOffer(s, k, now) {
          ItemShows(s, now, k, metric);
          ShownDriver(s, now, k, RiderItem(s, now, k, metric), metric);
        }
      }
      forall item | item in list.value
        ensures ShowsOffer(s, now, Pair(r, item.driver), item, metric) && Pair(r, item.driver) in s.offers
        ensures item == RiderItem(s, now, Pair(r, item.driver), metric)
      {
        var k :| k in s.offers && k.ride == r && Listed(s, now, k) && item == RiderItem(s, now, k, metric);
        assert k == Pair(r, item.driver);
      }
      forall k | LiveOffer(s, k, now) && k.ride == r ensures exists item | item in list.value :: item.driver == k.driver {
        assert RiderItem(s, now, k, metric) in list.value;
      }
    }
  }

  lemma ListedIsLive(s: State, now: Time, k: Pair)
    requires Inv(s, now) && OpenRide(s, k.ride, now)
    ensures Listed(s, now, k) <==> LiveOffer(s, k, now)
  {
    hide Inv;
    if LiveOffer(s, k, now) { LiveOfferIsOffered(s, now, k); }
  }

  lemma ShownDriver(s: State, now: Time, k: Pair, item: RiderOffer, metric: Metric)
    requires k.ride in s.rides && ShowsOffer(s, now, k, item, metric)
    ensures item.driver == k.driver
  {
    hide DriverReady;
  }
}
