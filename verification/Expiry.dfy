/** Deadline expiry: six UPDATE statements in order, and their combined effect row by row. */
module Expiry {
  import opened Base
  import opened MarketState

  predicate Closed(status: RideStatus) {
    status.RideAccepted? || status.RideCancelled? || status.RideExpired?
  }

  predicate RideClosed(rides: map<RideId, Ride>, r: RideId) {
    r in rides && Closed(rides[r].status)
  }

  function Responded(o: Opportunity, now: Time): Option<Time> {
    if o.respondedAt.Some? then o.respondedAt else Some(now)
  }

  function DecideOffer(o: Offer, status: OfferStatus, now: Time): Offer {
    o.(status := status, decidedAt := Some(now), updatedAt := now)
  }

  function CloseOpportunity(o: Opportunity, now: Time): Opportunity {
    o.(status := OpportunityClosed, respondedAt := Responded(o, now))
  }

  // ---- The six statements, each an update of a single table ----

  function ExpirePendingOffers(offers: map<Pair, Offer>, now: Time): map<Pair, Offer> {
    map k | k in offers ::
      if offers[k].status.Pending? && offers[k].expiresAt <= now
      then DecideOffer(offers[k], Expired, now) else offers[k]
  }

  function ExpireOfferedOpportunities(opportunities: map<Pair, Opportunity>, offers: map<Pair, Offer>, now: Time)
    : map<Pair, Opportunity>
  {
    map k | k in opportunities ::
      var o := opportunities[k];
      if o.status.Offered? && k in offers && offers[k].status.Expired?
      then o.(status := OfferExpired, respondedAt := Responded(o, now)) else o
  }

  function ExpireOpenWindows(opportunities: map<Pair, Opportunity>, now: Time): map<Pair, Opportunity> {
    map k | k in opportunities ::
      var o := opportunities[k];
      if o.status.Open? && o.visibleUntil <= now
      then o.(status := WindowExpired, respondedAt := Some(now)) else o
  }

  function ExpireRides(rides: map<RideId, Ride>, trips: map<RideId, Trip>, now: Time): map<RideId, Ride> {
    map r | r in rides :: SettledRide(rides[r], r in trips, now)
  }

  function CloseOffersOfClosedRides(offers: map<Pair, Offer>, rides: map<RideId, Ride>, now: Time)
    : map<Pair, Offer>
  {
    map k | k in offers ::
      if offers[k].status.Pending? && RideClosed(rides, k.ride)
      then DecideOffer(offers[k], OfferClosed, now) else offers[k]
  }

  function CloseOpportunitiesOfClosedRides(
    opportunities: map<Pair, Opportunity>, rides: map<RideId, Ride>, now: Time): map<Pair, Opportunity>
  {
    map k | k in opportunities ::
      var o := opportunities[k];
      if (o.status.Open? || o.status.Offered?) && RideClosed(rides, k.ride)
      then CloseOpportunity(o, now) else o
  }

  const STATEMENTS: nat := 6

  /** One statement of the sweep, by its position in the list. */
  function ExpireStatement(s: State, i: nat, now: Time): State
    requires i < STATEMENTS
  {
    match i
    case 0 => s.(offers := ExpirePendingOffers(s.offers, now))
    case 1 => s.(opportunities := ExpireOfferedOpportunities(s.opportunities, s.offers, now))
    case 2 => s.(opportunities := ExpireOpenWindows(s.opportunities, now))
    case 3 => s.(rides := ExpireRides(s.rides, s.trips, now))
    case 4 => s.(offers := CloseOffersOfClosedRides(s.offers, s.rides, now))
    case 5 => s.(opportunities := CloseOpportunitiesOfClosedRides(s.opportunities, s.rides, now))
  }

  /** The state after the first n statements, all at the same instant. */
  function ExpirePrefix(s: State, n: nat, now: Time): State
    requires n <= STATEMENTS
  {
    if n == 0 then s else ExpireStatement(ExpirePrefix(s, n - 1, now), n - 1, now)
  }

  // ---- The combined effect, row by row ----

  function SettledRide(ride: Ride, hasTrip: bool, now: Time): Ride {
    if ride.status.RideRequested? && ride.expiresAt <= now && !hasTrip
    then ride.(status := RideExpired) else ride
  }

  /** The ride is closed once its own deadline has been applied. */
  predicate RideClosing(s: State, r: RideId, now: Time) {
    r in s.rides && Closed(SettledRide(s.rides[r], r in s.trips, now).status)
  }

  predicate OfferLapsed(offers: map<Pair, Offer>, k: Pair, now: Time) {
    k in offers && (offers[k].status.Expired? || (offers[k].status.Pending? && offers[k].expiresAt <= now))
  }

  function SettledOffer(o: Offer, closing: bool, now: Time): Offer {
    if !o.status.Pending? then o
    else if o.expiresAt <= now then DecideOffer(o, Expired, now)
    else if closing then DecideOffer(o, OfferClosed, now)
    else o
  }

  function SettledOpportunity(o: Opportunity, lapsed: bool, closing: bool, now: Time): Opportunity {
    if o.status.Offered? && lapsed then
      o.(status := OfferExpired, respondedAt := Responded(o, now))
    else if o.status.Open? && o.visibleUntil <= now then
      o.(status := WindowExpired, respondedAt := Some(now))
    else if (o.status.Open? || o.status.Offered?) && closing then
      CloseOpportunity(o, now)
    else o
  }

  function SettledOffers(s: State, now: Time): map<Pair, Offer> {
    map k | k in s.offers :: SettledOffer(s.offers[k], RideClosing(s, k.ride, now), now)
  }

  function SettledOpportunities(s: State, now: Time): map<Pair, Opportunity> {
    map k | k in s.opportunities ::
      SettledOpportunity(s.opportunities[k], OfferLapsed(s.offers, k, now), RideClosing(s, k.ride, now), now)
  }

  /** Every row as the deadlines at `now` leave it. */
  function Settle(s: State, now: Time): State {
    s.(rides := ExpireRides(s.rides, s.trips, now),
       offers := SettledOffers(s, now),
       opportunities := SettledOpportunities(s, now))
  }

  /** No row is waiting for a deadline to be applied. */
  ghost predicate Settled(s: State, now: Time) {
    && (forall r | r in s.rides ::
          s.rides[r].status.RideRequested? && r !in s.trips ==> s.rides[r].expiresAt > now)
    && (forall k | k in s.offers ::
          s.offers[k].status.Pending? ==> s.offers[k].expiresAt > now && !RideClosed(s.rides, k.ride))
    && (forall k | k in s.opportunities ::
          && (s.opportunities[k].status.Open? ==> s.opportunities[k].visibleUntil > now)
          && (s.opportunities[k].status.Offered? ==> !(k in s.offers && s.offers[k].status.Expired?))
          && (s.opportunities[k].status.Open? || s.opportunities[k].status.Offered? ==>
                !RideClosed(s.rides, k.ride)))
  }

  lemma SixOfferUpdates(s: State, now: Time)
    ensures CloseOffersOfClosedRides(ExpirePendingOffers(s.offers, now), ExpireRides(s.rides, s.trips, now), now)
         == SettledOffers(s, now)
  {
  }

  function SweptOpportunities(s: State, now: Time): map<Pair, Opportunity> {
    CloseOpportunitiesOfClosedRides(
      ExpireOpenWindows(ExpireOfferedOpportunities(s.opportunities, ExpirePendingOffers(s.offers, now), now), now),
      ExpireRides(s.rides, s.trips, now), now)
  }

  lemma SixOpportunityUpdatesRow(s: State, now: Time, k: Pair)
    requires k in s.opportunities
    ensures k in SweptOpportunities(s, now)
    ensures SweptOpportunities(s, now)[k]
         == SettledOpportunity(s.opportunities[k], OfferLapsed(s.offers, k, now), RideClosing(s, k.ride, now), now)
  {
    var offers := ExpirePendingOffers(s.offers, now);
    assert k in offers && offers[k].status.Expired? <==> OfferLapsed(s.offers, k, now);
  }

  lemma SixOpportunityUpdates(s: State, now: Time)
    ensures SweptOpportunities(s, now) == SettledOpportunities(s, now)
  {
    assert SweptOpportunities(s, now).Keys == s.opportunities.Keys;
    hide SweptOpportunities, SettledOpportunity, OfferLapsed, RideClosing;
    forall k | k in s.opportunities { SixOpportunityUpdatesRow(s, now, k); }
  }

  /** The six statements in order have exactly the row-by-row effect. */
  lemma SixStatementsSettle(s: State, now: Time)
    ensures ExpirePrefix(s, STATEMENTS, now) == Settle(s, now)
  {
    assert ExpirePrefix(s, 1, now) == ExpireStatement(s, 0, now);
    assert ExpirePrefix(s, 2, now) == ExpireStatement(ExpirePrefix(s, 1, now), 1, now);
    assert ExpirePrefix(s, 3, now) == ExpireStatement(ExpirePrefix(s, 2, now), 2, now);
    assert ExpirePrefix(s, 4, now) == ExpireStatement(ExpirePrefix(s, 3, now), 3, now);
    assert ExpirePrefix(s, 5, now) == ExpireStatement(ExpirePrefix(s, 4, now), 4, now);
    SixOfferUpdates(s, now);
    SixOpportunityUpdates(s, now);
  }

  /** Completeness: after a sweep at `now` nothing is overdue at `now`. */
  lemma SettleIsComplete(s: State, now: Time)
    ensures Settled(Settle(s, now), now)
  {
    var x := Settle(s, now);
    assert forall r :: RideClosed(x.rides, r) <==> RideClosing(s, r, now);
  }

  /** A state in which nothing is overdue is exactly a fixed point of the sweep. */
  lemma SettledIffFixed(s: State, now: Time)
    ensures Settled(s, now) <==> Settle(s, now) == s
  {
    if Settled(s, now) {
      assert ExpireRides(s.rides, s.trips, now) == s.rides;
      assert SettledOffers(s, now) == s.offers;
      assert SettledOpportunities(s, now) == s.opportunities;
    } else {
      SettleIsComplete(s, now);
    }
  }

  /** Idempotence of the sweep at a fixed instant. */
  lemma SettleIsIdempotent(s: State, now: Time)
    ensures Settle(Settle(s, now), now) == Settle(s, now)
  {
    SettleIsComplete(s, now);
    SettledIffFixed(Settle(s, now), now);
  }
}
