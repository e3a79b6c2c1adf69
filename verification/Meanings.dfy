/** The conditions of the queries spelled out over the stored columns, and what a sweep does to each row. */
module Meanings {
  import opened Base
  import opened MarketState
  import opened Expiry
  import opened Transactions

  /** Requested, before its deadline, with a proposed fare and without a trip. */
  predicate OpenRide(s: State, r: RideId, now: Time) {
    && r in s.rides && r !in s.trips
    && s.rides[r].status == RideRequested && now < s.rides[r].expiresAt && s.rides[r].fare.Some?
  }

  /** Active and online with a position at most two minutes old, an own selected vehicle that serves, and no trip under way. */
  ghost predicate DriverReady(s: State, d: UserId, service: ServiceCode, now: Time) {
    var f := s.fleet;
    && d in f.profiles && f.profiles[d].status == Active && f.profiles[d].online && d in f.capable
    && d in f.selections && f.selections[d] in f.vehicles && f.vehicles[f.selections[d]].owner == d
    && Enrollment(f.selections[d], service) in f.enrollments
    && service in f.catalog && f.catalog[service].active
    && d in f.positions && now - 120_000_000 <= f.positions[d].updatedAt && f.positions[d].updatedAt <= now
    && forall r | r in s.trips && s.trips[r].driver == d :: s.trips[r].status == Completed || s.trips[r].status == TripCancelled
  }

  lemma EligibleMeans(s: State, d: UserId, service: ServiceCode, now: Time)
    ensures Eligible(s, d, service, now) <==> DriverReady(s, d, service, now)
  {
  }

  predicate OpenWindow(s: State, k: Pair, now: Time) {
    k in s.opportunities && s.opportunities[k].status == Open && now < s.opportunities[k].visibleUntil
  }

  /** The ride is over, or a sweep at `now` would find its deadline passed. */
  predicate RideOver(s: State, r: RideId, now: Time) {
    r in s.rides && (s.rides[r].status != RideRequested || (s.rides[r].expiresAt <= now && r !in s.trips))
  }

  function FirstResponse(o: Opportunity, now: Time): Option<Time> {
    if o.respondedAt == None then Some(now) else o.respondedAt
  }

  /** Keys, trips, drivers and policy stay, and an unswept row stays as it is. */
  lemma SweptFrame(s: State, now: Time)
    ensures var x := Settle(s, now);
      && x.trips == s.trips && x.fleet == s.fleet && x.policy == s.policy
      && x.rides.Keys == s.rides.Keys && x.offers.Keys == s.offers.Keys
      && x.opportunities.Keys == s.opportunities.Keys
  {
  }

  /** A requested ride without a trip expires at its deadline; no other ride changes. */
  lemma SweptRide(s: State, now: Time, r: RideId)
    requires r in s.rides
    ensures r in Settle(s, now).rides
    ensures Settle(s, now).rides[r] ==
      if s.rides[r].status == RideRequested && s.rides[r].expiresAt <= now && r !in s.trips
      then s.rides[r].(status := RideExpired) else s.rides[r]
  {
  }

  /** A pending offer expires at its deadline, and closes with its ride before that; no other offer changes. */
  lemma SweptOffer(s: State, now: Time, k: Pair)
    requires k in s.offers
    ensures k in Settle(s, now).offers
    ensures var o := s.offers[k];
      Settle(s, now).offers[k] ==
        if o.status != Pending then o
        else if o.expiresAt <= now then o.(status := Expired, decidedAt := Some(now), updatedAt := now)
        else if RideOver(s, k.ride, now) then o.(status := OfferClosed, decidedAt := Some(now), updatedAt := now)
        else o
  {
  }

  /** An offered opportunity expires with its offer, an open one with its window, and both close with their ride. */
  lemma SweptOpportunity(s: State, now: Time, k: Pair)
    requires k in s.opportunities
    ensures k in Settle(s, now).opportunities
    ensures var o := s.opportunities[k];
      var lapsed := k in s.offers
        && (s.offers[k].status == Expired || (s.offers[k].status == Pending && s.offers[k].expiresAt <= now));
      Settle(s, now).opportunities[k] ==
        if o.status == Offered && lapsed then o.(status := OfferExpired, respondedAt := FirstResponse(o, now))
        else if o.status == Open && o.visibleUntil <= now then o.(status := WindowExpired, respondedAt := Some(now))
        else if (o.status == Open || o.status == Offered) && RideOver(s, k.ride, now)
        then o.(status := OpportunityClosed, respondedAt := FirstResponse(o, now))
        else o
  {
  }

  /** On an open ride, the sweep leaves the ride, every open window and every unexpired pending offer as they are. */
  lemma SweepKeepsOpenRide(s: State, now: Time, k: Pair)
    ensures var x := Settle(s, now);
      && (OpenRide(x, k.ride, now) <==> OpenRide(s, k.ride, now))
      && (RideLive(x, k.ride, now) <==> OpenRide(s, k.ride, now))
      && (OpenRide(s, k.ride, now) ==>
            && x.rides[k.ride] == s.rides[k.ride]
            && (OpenWindow(x, k, now) <==> OpenWindow(s, k, now))
            && (OpenWindow(s, k, now) ==> x.opportunities[k] == s.opportunities[k])
            && (k in s.offers ==>
                  && k in x.offers
                  && (s.offers[k].status == Pending && now < s.offers[k].expiresAt
                      <==> x.offers[k].status == Pending && now < x.offers[k].expiresAt)
                  && (s.offers[k].status != Pending || now < s.offers[k].expiresAt ==> x.offers[k] == s.offers[k])))
  {
  }

  lemma SweptDriver(s: State, now: Time, d: UserId, service: ServiceCode)
    ensures DriverReady(Settle(s, now), d, service, now) <==> DriverReady(s, d, service, now)
  {
    hide Settle;
    SweptFrame(s, now);
  }

  /** Nothing but the pair's own rows differs from what a sweep at `now` leaves. */
  ghost predicate OnlyPairWritten(s: State, y: State, now: Time, k: Pair) {
    var x := Settle(s, now);
    && y == x.(offers := y.offers, opportunities := y.opportunities)
    && (forall j: Pair | j != k :: j in y.offers <==> j in s.offers)
    && (forall j | j != k && j in s.offers :: j in x.offers && y.offers[j] == x.offers[j])
    && (forall j: Pair | j != k :: j in y.opportunities <==> j in s.opportunities)
    && (forall j | j != k && j in s.opportunities :: j in x.opportunities && y.opportunities[j] == x.opportunities[j])
  }

  /** A response whose ride is decided now: overdue ones expire, the others close. */
  function EndedOffer(o: Offer, now: Time): Offer {
    if o.status != Pending then o
    else o.(status := if o.expiresAt <= now then Expired else OfferClosed, decidedAt := Some(now), updatedAt := now)
  }

  predicate OfferOverdue(s: State, k: Pair, now: Time) {
    && k in s.offers
    && (s.offers[k].status == Expired || (s.offers[k].status == Pending && s.offers[k].expiresAt <= now))
  }

  function EndedOpportunity(o: Opportunity, overdue: bool, now: Time): Opportunity {
    if o.status == Offered then
      o.(status := if overdue then OfferExpired else OpportunityClosed, respondedAt := FirstResponse(o, now))
    else if o.status == Open then
      if o.visibleUntil <= now then o.(status := WindowExpired, respondedAt := Some(now))
      else o.(status := OpportunityClosed, respondedAt := FirstResponse(o, now))
    else o
  }

  /** Every offer on the ride has ended, but for one driver's when given; the other rides' are as a sweep leaves them. */
  ghost predicate OffersEnded(s: State, offers: map<Pair, Offer>, now: Time, r: RideId, except: Option<UserId>) {
    var x := Settle(s, now);
    && offers.Keys == s.offers.Keys
    && (forall j | j in s.offers && j.ride == r && Some(j.driver) != except :: offers[j] == EndedOffer(s.offers[j], now))
    && (forall j | j in s.offers && j.ride != r :: j in x.offers && offers[j] == x.offers[j])
  }

  /** Likewise every opportunity. */
  ghost predicate OpportunitiesEnded(s: State, opportunities: map<Pair, Opportunity>, now: Time, r: RideId,
                                     except: Option<UserId>)
  {
    var x := Settle(s, now);
    && opportunities.Keys == s.opportunities.Keys
    && (forall j | j in s.opportunities && j.ride == r && Some(j.driver) != except ::
          opportunities[j] == EndedOpportunity(s.opportunities[j], OfferOverdue(s, j, now), now))
    && (forall j | j in s.opportunities && j.ride != r :: j in x.opportunities && opportunities[j] == x.opportunities[j])
  }

  /** The other rides are as a sweep leaves them, the other trips as they were, drivers and policy untouched. */
  ghost predicate OnlyRideWritten(s: State, y: State, now: Time, r: RideId) {
    var x := Settle(s, now);
    && y.rides.Keys == s.rides.Keys
    && (forall q | q in s.rides && q != r :: q in x.rides && y.rides[q] == x.rides[q])
    && (forall q: RideId | q != r :: q in y.trips <==> q in s.trips)
    && (forall q | q in s.trips && q != r :: y.trips[q] == s.trips[q])
    && y.fleet == s.fleet && y.policy == s.policy
  }

  /** Closing a ride's responses after a sweep at the same instant ends each of them. */
  lemma SweptThenClosedOffers(s: State, now: Time, r: RideId, except: Option<UserId>)
    ensures OffersEnded(s, CloseRideOffers(Settle(s, now).offers, r, except, now), now, r, except)
  {
    hide Settle;
    SweptFrame(s, now);
    forall j | j in s.offers
      ensures j in Settle(s, now).offers
      ensures j.ride == r && Some(j.driver) != except ==>
        CloseRideOffers(Settle(s, now).offers, r, except, now)[j] == EndedOffer(s.offers[j], now)
    {
      SweptOffer(s, now, j);
    }
  }

  lemma SweptThenClosedOpportunities(s: State, now: Time, r: RideId, except: Option<UserId>)
    ensures OpportunitiesEnded(s, CloseRideOpportunities(Settle(s, now).opportunities, r, except, now), now, r, except)
  {
    hide Settle;
    SweptFrame(s, now);
    forall j | j in s.opportunities
      ensures j in Settle(s, now).opportunities
      ensures j.ride == r && Some(j.driver) != except ==>
        CloseRideOpportunities(Settle(s, now).opportunities, r, except, now)[j]
          == EndedOpportunity(s.opportunities[j], OfferOverdue(s, j, now), now)
    {
      SweptOpportunity(s, now, j);
    }
  }
}
