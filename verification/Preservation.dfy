/** Every transaction keeps the cross-table invariant. */
module Preservation {
  import opened Base
  import opened MarketState
  import opened Expiry
  import opened Fares
  import opened Transactions
  import opened Invariants

  // ---- Rows a transaction leaves alone stay in order ----

  lemma UntouchedOpportunity(s: State, y: State, k: Pair)
    requires k in s.opportunities && OpportunityOk(s, k)
    requires k in y.opportunities && y.opportunities[k] == s.opportunities[k]
    requires OfferRowOf(y, k) == OfferRowOf(s, k)
    requires k.ride in y.rides && y.rides[k.ride].rider == s.rides[k.ride].rider
    requires y.rides[k.ride].fare == s.rides[k.ride].fare
    requires RideClosed(y.rides, k.ride) == RideClosed(s.rides, k.ride)
    requires Won(y, k) == Won(s, k)
    requires k.driver in y.fleet.capable
    ensures OpportunityOk(y, k)
  {
  }

  lemma UntouchedTerms(s: State, y: State, k: Pair)
    requires k in s.offers && OfferOk(s, k)
    requires k in y.offers && k in y.opportunities && k.ride in y.rides
    requires y.offers[k] == s.offers[k]
    requires y.rides[k.ride].fare == s.rides[k.ride].fare && y.rides[k.ride].service == s.rides[k.ride].service
    ensures OfferOk(y, k)
  {
  }

  lemma UntouchedTrip(s: State, y: State, r: RideId)
    requires r in s.trips && TripOk(s, r)
    requires r in y.trips && y.trips[r] == s.trips[r]
    requires r in y.rides && y.rides[r].rider == s.rides[r].rider
    requires s.offers.Keys <= y.offers.Keys && s.opportunities.Keys <= y.opportunities.Keys
    requires y.offers[Pair(r, s.trips[r].driver)].context == s.offers[Pair(r, s.trips[r].driver)].context
    ensures TripOk(y, r)
  {
  }

  /** A change confined to opportunities and offers needs only those rows checked. */
  lemma PairChangeKeepsInv(s: State, y: State, clock: Time)
    requires Inv(s, clock)
    requires y == s.(offers := y.offers, opportunities := y.opportunities)
    requires s.offers.Keys <= y.offers.Keys && s.opportunities.Keys <= y.opportunities.Keys
    requires forall k | k in s.offers :: y.offers[k].context == s.offers[k].context
    requires PairsOk(y)
    ensures Inv(y, clock)
  {
    hide PairsOk, TripOk, FleetOk, RideAgrees, OwnsVehicle, PolicyAllowed, ActiveTrip;
    assert forall r | r in s.trips :: Pair(r, s.trips[r].driver) in s.offers && r in s.rides by {
      TripsPointBack(s);
    }
    forall r | r in y.trips ensures TripOk(y, r) {
      UntouchedTrip(s, y, r);
    }
    assert forall r :: TripRowOf(y, r) == TripRowOf(s, r);
  }

  lemma TripsPointBack(s: State)
    requires TripsOk(s)
    ensures forall r | r in s.trips :: Pair(r, s.trips[r].driver) in s.offers && r in s.rides
  {
    assert forall r | r in s.trips :: TripOk(s, r);
  }

  // ---- The sweep, statement by statement ----

  predicate OfferSwept(a: Offer, b: Offer, closed: bool, now: Time) {
    || b == a
    || (a.status.Pending? && b == DecideOffer(a, Expired, now))
    || (a.status.Pending? && closed && b == DecideOffer(a, OfferClosed, now))
  }

  predicate OpportunitySwept(a: Opportunity, b: Opportunity, offer: Option<Offer>, closed: bool, now: Time) {
    || b == a
    || (a.status.Offered? && offer.Some? && offer.value.status.Expired?
        && b == a.(status := OfferExpired, respondedAt := Responded(a, now)))
    || (a.status.Open? && b == a.(status := WindowExpired, respondedAt := Some(now)))
    || ((a.status.Open? || a.status.Offered?) && closed && b == CloseOpportunity(a, now))
  }

  predicate RideSwept(a: Ride, b: Ride, hasTrip: bool) {
    b == a || (a.status.RideRequested? && !hasTrip && b == a.(status := RideExpired))
  }

  lemma SweptOfferRow(s: State, offers: map<Pair, Offer>, now: Time, k: Pair)
    requires k in s.opportunities && OpportunityOk(s, k)
    requires k in offers <==> k in s.offers
    requires k in offers ==> OfferSwept(s.offers[k], offers[k], RideClosed(s.rides, k.ride), now)
    ensures OpportunityOk(s.(offers := offers), k)
  {
  }

  lemma SweptTerms(s: State, offers: map<Pair, Offer>, now: Time, k: Pair)
    requires k in s.offers && OfferOk(s, k)
    requires k in offers && OfferSwept(s.offers[k], offers[k], RideClosed(s.rides, k.ride), now)
    ensures OfferOk(s.(offers := offers), k) && offers[k].context == s.offers[k].context
  {
  }

  lemma SweptOffersKeepInv(s: State, offers: map<Pair, Offer>, now: Time, clock: Time)
    requires Inv(s, clock)
    requires offers.Keys == s.offers.Keys
    requires forall k | k in offers :: OfferSwept(s.offers[k], offers[k], RideClosed(s.rides, k.ride), now)
    ensures Inv(s.(offers := offers), clock)
  {
    hide OpportunityOk, OfferOk, OfferSwept, TripsOk, DriversOk, RidesOk, FleetOk;
    forall k | k in s.opportunities { SweptOfferRow(s, offers, now, k); }
    forall k | k in s.offers { SweptTerms(s, offers, now, k); }
    PairChangeKeepsInv(s, s.(offers := offers), clock);
  }

  lemma SweptOpportunityRow(s: State, opportunities: map<Pair, Opportunity>, now: Time, k: Pair)
    requires k in s.opportunities && OpportunityOk(s, k) && k in opportunities
    requires OpportunitySwept(s.opportunities[k], opportunities[k], OfferRowOf(s, k), RideClosed(s.rides, k.ride), now)
    ensures OpportunityOk(s.(opportunities := opportunities), k)
  {
  }

  lemma SweptOpportunitiesKeepInv(s: State, opportunities: map<Pair, Opportunity>, now: Time, clock: Time)
    requires Inv(s, clock)
    requires opportunities.Keys == s.opportunities.Keys
    requires forall k | k in opportunities ::
      OpportunitySwept(s.opportunities[k], opportunities[k], OfferRowOf(s, k), RideClosed(s.rides, k.ride), now)
    ensures Inv(s.(opportunities := opportunities), clock)
  {
    hide OpportunityOk, TermsAgree, OpportunitySwept, TripsOk, DriversOk, RidesOk, FleetOk;
    var y := s.(opportunities := opportunities);
    forall k | k in s.opportunities { SweptOpportunityRow(s, opportunities, now, k); }
    assert forall k | k in s.offers :: OfferOk(s, k);
    PairChangeKeepsInv(s, y, clock);
  }

  lemma SweptRideRow(s: State, rides: map<RideId, Ride>, k: Pair)
    requires k in s.opportunities && OpportunityOk(s, k)
    requires k.ride in rides && RideSwept(s.rides[k.ride], rides[k.ride], k.ride in s.trips)
    ensures OpportunityOk(s.(rides := rides), k)
  {
  }

  /** Ride rows may move to another status that still agrees with the trip, if closed rides stay closed. */
  lemma SweptRidesKeepInv(s: State, rides: map<RideId, Ride>, clock: Time)
    requires Inv(s, clock)
    requires rides.Keys == s.rides.Keys
    requires forall r | r in rides :: RideSwept(s.rides[r], rides[r], r in s.trips)
    ensures Inv(s.(rides := rides), clock)
  {
    var y := s.(rides := rides);
    hide OpportunityOk, OfferOk, TripOk, DriversOk, FleetOk;
    TripsPointBack(s);
    forall k | k in s.opportunities ensures OpportunityOk(y, k) {
      OpportunityPointsBack(s, k);
      SweptRideRow(s, rides, k);
    }
    forall k | k in s.offers ensures OfferOk(y, k) {
      OfferPointsBack(s, k);
      UntouchedTerms(s, y, k);
    }
    forall r | r in s.trips ensures TripOk(y, r) { UntouchedTrip(s, y, r); }
    assert forall r :: TripRowOf(y, r) == TripRowOf(s, r);
    DriversIgnore(s, y);
  }

  lemma OpportunityPointsBack(s: State, k: Pair)
    requires k in s.opportunities && OpportunityOk(s, k)
    ensures k.ride in s.rides
  {
  }

  lemma OfferPointsBack(s: State, k: Pair)
    requires k in s.offers && OfferOk(s, k)
    ensures k.ride in s.rides && k in s.opportunities
  {
  }

  lemma DriversIgnore(s: State, y: State)
    requires DriversOk(s) && y.trips == s.trips && y.fleet.selections == s.fleet.selections
    ensures DriversOk(y)
  {
  }

  lemma StatementKeepsInv(s: State, i: nat, now: Time, clock: Time)
    requires Inv(s, clock) && i < STATEMENTS
    ensures Inv(ExpireStatement(s, i, now), clock)
  {
    hide Inv;
    match i
    case 0 => SweptOffersKeepInv(s, ExpirePendingOffers(s.offers, now), now, clock);
    case 1 => SweptOpportunitiesKeepInv(s, ExpireOfferedOpportunities(s.opportunities, s.offers, now), now, clock);
    case 2 => SweptOpportunitiesKeepInv(s, ExpireOpenWindows(s.opportunities, now), now, clock);
    case 3 => SweptRidesKeepInv(s, ExpireRides(s.rides, s.trips, now), clock);
    case 4 => SweptOffersKeepInv(s, CloseOffersOfClosedRides(s.offers, s.rides, now), now, clock);
    case 5 => SweptOpportunitiesKeepInv(s, CloseOpportunitiesOfClosedRides(s.opportunities, s.rides, now), now, clock);
  }

  lemma {:induction false} PrefixKeepsInv(s: State, n: nat, now: Time, clock: Time)
    requires Inv(s, clock) && n <= STATEMENTS
    ensures Inv(ExpirePrefix(s, n, now), clock)
  {
    hide Inv, ExpireStatement;
    if n > 0 {
      PrefixKeepsInv(s, n - 1, now, clock);
      StatementKeepsInv(ExpirePrefix(s, n - 1, now), n - 1, now, clock);
    }
  }

  lemma SettleKeepsInv(s: State, now: Time, clock: Time)
    requires Inv(s, clock)
    ensures Inv(Settle(s, now), clock)
  {
    hide Inv, Settle;
    PrefixKeepsInv(s, STATEMENTS, now, clock);
    SixStatementsSettle(s, now);
  }

  // ---- Single-pair transactions ----

  /** Rewriting one pair's opportunity and offer: the other pairs need no second look. */
  lemma OnePairKeepsInv(x: State, y: State, k: Pair, clock: Time)
    requires Inv(x, clock)
    requires y == x.(offers := y.offers, opportunities := y.opportunities)
    requires k in x.opportunities && k in y.opportunities && y.opportunities == x.opportunities[k := y.opportunities[k]]
    requires y.offers == x.offers || (k in y.offers && y.offers == x.offers[k := y.offers[k]])
    requires k in x.offers ==> k in y.offers && y.offers[k].context == x.offers[k].context
    requires OpportunityOk(y, k) && (k in y.offers ==> OfferOk(y, k))
    ensures Inv(y, clock)
  {
    hide OpportunityOk, OfferOk, TripsOk, DriversOk, RidesOk, FleetOk;
    forall j | j in y.opportunities ensures OpportunityOk(y, j) {
      if j != k {
        OpportunityCapable(x, j);
        UntouchedOpportunity(x, y, j);
      }
    }
    forall j | j in y.offers ensures OfferOk(y, j) {
      if j != k {
        OfferPointsBack(x, j);
        UntouchedTerms(x, y, j);
      }
    }
    PairChangeKeepsInv(x, y, clock);
  }

  lemma OpportunityCapable(s: State, k: Pair)
    requires k in s.opportunities && OpportunityOk(s, k)
    ensures k.ride in s.rides && k.driver in s.fleet.capable
  {
  }

  lemma SkipKeepsInv(s: State, now: Time, k: Pair)
    requires Inv(s, now)
    ensures Inv(Skip(s, now, k).state, now)
  {
    hide Inv, Settle;
    SettleKeepsInv(s, now, now);
    var x := Settle(s, now);
    if CanSkip(x, now, k) {
      SkipRow(x, Skip(s, now, k).state, now, k);
      OnePairKeepsInv(x, Skip(s, now, k).state, k, now);
    }
  }

  lemma SkipRow(x: State, y: State, now: Time, k: Pair)
    requires Inv(x, now) && k in x.opportunities && x.opportunities[k].status.Open?
    requires y == x.(opportunities :=
      x.opportunities[k := x.opportunities[k].(status := DriverSkipped, respondedAt := Some(now))])
    ensures OpportunityOk(y, k) && k !in x.offers
  {
    hide TripsOk, DriversOk, RidesOk, FleetOk, OfferOk;
    assert OpportunityOk(x, k);
  }

  lemma RejectKeepsInv(s: State, now: Time, k: Pair, rider: UserId)
    requires Inv(s, now)
    ensures Inv(Reject(s, now, k, rider).state, now)
  {
    hide Inv, Settle;
    SettleKeepsInv(s, now, now);
    var x := Settle(s, now);
    var y := Reject(s, now, k, rider).state;
    if y != s && y != x {
      RejectRow(x, y, now, k);
      OnePairKeepsInv(x, y, k, now);
    }
  }

  lemma RejectRow(x: State, y: State, now: Time, k: Pair)
    requires Inv(x, now) && k in x.offers && x.offers[k].status.Pending? && RideLive(x, k.ride, now)
    requires y == x.(offers := x.offers[k := DecideOffer(x.offers[k], Rejected, now)],
                     opportunities := RejectOpportunity(x.opportunities, k))
    ensures k in x.opportunities && x.opportunities[k].status.Offered?
    ensures OpportunityOk(y, k) && OfferOk(y, k)
  {
    hide TripsOk, DriversOk, RidesOk, FleetOk;
    assert OfferOk(x, k);
    assert OpportunityOk(x, k);
  }

  /** The bounds must be those of the ride's own proposal, which a quote of the ride provides. */
  predicate BoundsOfRide(s: State, r: RideId, minimum: int, maximum: int) {
    r in s.rides && s.rides[r].fare.Some? ==>
      minimum == Minimum(s.rides[r].fare.value.amount) && maximum == Maximum(s.rides[r].fare.value.amount)
  }

  lemma UpsertKeepsInv(
    s: State, now: Time, k: Pair, amount: int, minimum: int, maximum: int, currency: string)
    requires Inv(s, now) && BoundsOfRide(s, k.ride, minimum, maximum)
    ensures Inv(Upsert(s, now, k, amount, minimum, maximum, currency).state, now)
  {
    hide Inv, Settle, Eligible, OfferRowAllowed, RideLive, BoundsOfRide;
    SettleKeepsInv(s, now, now);
    var x := Settle(s, now);
    var y := Upsert(s, now, k, amount, minimum, maximum, currency).state;
    if y != s {
      SettleKeepsFares(s, now);
      assert BoundsOfRide(x, k.ride, minimum, maximum) by { SettleKeepsBounds(s, now, k.ride, minimum, maximum); }
      UpsertRow(x, y, now, k, amount, minimum, maximum, currency);
      OnePairKeepsInv(x, y, k, now);
    }
  }

  lemma SettleKeepsFares(s: State, now: Time)
    ensures Settle(s, now).rides.Keys == s.rides.Keys
    ensures forall r | r in s.rides :: Settle(s, now).rides[r].fare == s.rides[r].fare
  {
  }

  lemma SettleKeepsBounds(s: State, now: Time, r: RideId, minimum: int, maximum: int)
    requires BoundsOfRide(s, r, minimum, maximum)
    ensures BoundsOfRide(Settle(s, now), r, minimum, maximum)
  {
  }

  lemma UpsertRow(x: State, y: State, now: Time, k: Pair, amount: int, minimum: int, maximum: int, currency: string)
    requires Inv(x, now) && BoundsOfRide(x, k.ride, minimum, maximum)
    requires RideLive(x, k.ride, now) && x.rides[k.ride].fare.value.currency == currency
    requires minimum <= amount <= maximum
    requires k in x.opportunities && x.opportunities[k].status.Open? && k !in x.offers
    requires Eligible(x, k.driver, x.rides[k.ride].service, now)
    requires y == x.(
      offers := x.offers[k := Offer(amount, currency, Pending, now, now, now + x.policy.offerTtl * SECOND, None,
        ContextOf(x.fleet, k.driver, x.rides[k.ride].service, Money(amount, currency)))],
      opportunities := x.opportunities[k := x.opportunities[k].(status := Offered, respondedAt := Some(now))])
    ensures OpportunityOk(y, k) && OfferOk(y, k)
  {
    hide TripsOk, DriversOk, FleetOk, Eligible;
    assert OpportunityOk(x, k);
    assert RideAgrees(x.rides[k.ride], TripRowOf(x, k.ride));
    BoundsMeanPercentages(x.rides[k.ride].fare.value.amount, amount);
  }

  // ---- New rows ----

  lemma CreateRideKeepsInv(s: State, now: Time, r: RideId, rider: UserId, service: ServiceCode,
                           fare: Option<Money>, pickup: Point)
    requires Inv(s, now)
    ensures Inv(CreateRide(s, now, r, rider, service, fare, pickup).state, now)
  {
    var y := CreateRide(s, now, r, rider, service, fare, pickup).state;
    hide OpportunityOk, OfferOk, TripOk, DriversOk, FleetOk;
    TripsPointBack(s);
    if y != s {
      forall k | k in s.opportunities ensures OpportunityOk(y, k) {
        OpportunityCapable(s, k);
        UntouchedOpportunity(s, y, k);
      }
      forall k | k in s.offers ensures OfferOk(y, k) {
        OfferPointsBack(s, k);
        UntouchedTerms(s, y, k);
      }
      forall q | q in s.trips ensures TripOk(y, q) { UntouchedTrip(s, y, q); }
      assert forall q :: TripRowOf(y, q) == TripRowOf(s, q);
      DriversIgnore(s, y);
    }
  }

  lemma OpenedRow(x: State, now: Time, d: UserId, chosen: set<RideId>, k: Pair)
    requires Inv(x, now) && chosen <= Openable(x, now, d) && k in PairsOf(chosen, d)
    ensures k !in x.opportunities && k !in x.offers
    ensures OpportunityOk(WithOpened(x, now, d, chosen), k)
  {
    hide FleetOk, DriversOk, RidesOk;
    assert k == Pair(k.ride, d) && k.ride in Openable(x, now, d);
    assert k in x.offers ==> OfferOk(x, k);
  }

  lemma OpeningKeepsInv(x: State, now: Time, d: UserId, chosen: set<RideId>)
    requires Inv(x, now) && chosen <= Openable(x, now, d)
    ensures Inv(WithOpened(x, now, d, chosen), now)
  {
    var y := WithOpened(x, now, d, chosen);
    hide OpportunityOk, OfferOk, TripsOk, DriversOk, RidesOk, FleetOk, Openable;
    forall k | k in y.opportunities ensures OpportunityOk(y, k) {
      if k in PairsOf(chosen, d) {
        OpenedRow(x, now, d, chosen, k);
      } else {
        OpportunityCapable(x, k);
        UntouchedOpportunity(x, y, k);
      }
    }
    forall k | k in y.offers ensures OfferOk(y, k) {
      OfferPointsBack(x, k);
      UntouchedTerms(x, y, k);
    }
    PairChangeKeepsInv(x, y, now);
  }

  lemma OpenedByIsOpenable(x: State, now: Time, d: UserId, limit: nat, metric: Metric)
    ensures OpenedBy(x, now, d, limit, metric) <= Openable(x, now, d)
  {
  }

  lemma DiscoverKeepsInv(s: State, now: Time, d: UserId, limit: nat, metric: Metric)
    requires Inv(s, now)
    ensures Inv(Discover(s, now, d, limit, metric).state, now)
  {
    hide Inv, Settle, OpenedBy, Openable, WithOpened, Shown;
    SettleKeepsInv(s, now, now);
    var x := Settle(s, now);
    OpenedByIsOpenable(x, now, d, limit, metric);
    OpeningKeepsInv(x, now, d, OpenedBy(x, now, d, limit, metric));
  }

  // ---- Transactions on all rows of a ride ----

  /** Closing a ride's pairs, when the ride has just become closed. */
  lemma ClosedPairRow(x: State, y: State, r: RideId, except: Option<UserId>, now: Time, k: Pair)
    requires k in x.opportunities && OpportunityOk(x, k) && k.ride == r && Some(k.driver) != except
    requires k in y.opportunities && (k in y.offers <==> k in x.offers)
    requires r in y.rides && y.rides[r].rider == x.rides[r].rider && y.rides[r].fare == x.rides[r].fare
    requires Closed(y.rides[r].status)
    requires y.opportunities[k] == CloseRideOpportunities(x.opportunities, r, except, now)[k]
    requires k in x.offers ==> y.offers[k] == CloseRideOffers(x.offers, r, except, now)[k]
    requires Won(y, k) == Won(x, k) && y.fleet == x.fleet
    ensures OpportunityOk(y, k)
  {
  }

  lemma ClosedTermsRow(x: State, y: State, r: RideId, except: Option<UserId>, now: Time, k: Pair)
    requires k in x.offers && OfferOk(x, k)
    requires k in y.offers && k in y.opportunities && k.ride in y.rides
    requires y.offers[k] == CloseRideOffers(x.offers, r, except, now)[k]
    requires y.rides[k.ride].fare == x.rides[k.ride].fare && y.rides[k.ride].service == x.rides[k.ride].service
    ensures OfferOk(y, k)
  {
  }

  /** The facts SelectOffer has established when it starts to write. */
  predicate Selecting(x: State, now: Time, k: Pair) {
    && RideLive(x, k.ride, now)
    && k in x.offers && x.offers[k].status.Pending?
    && k in x.opportunities && x.opportunities[k].status.Offered?
    && !Busy(x.trips, k.driver)
    && k.driver in x.fleet.selections
    && x.offers[k].context.vehicle == x.fleet.selections[k.driver]
  }

  /** What SelectOffer writes. */
  function Selected(x: State, now: Time, k: Pair): State
    requires Selecting(x, now, k)
  {
    var trip := NewTrip(x.rides[k.ride].rider, k.driver, now, x.offers[k].context);
    var accepted := x.offers[k := DecideOffer(x.offers[k], OfferAccepted, now)];
    x.(offers := CloseRideOffers(accepted, k.ride, Some(k.driver), now),
       opportunities := CloseRideOpportunities(AcceptOpportunity(x.opportunities, k), k.ride, Some(k.driver), now),
       trips := x.trips[k.ride := trip],
       rides := x.rides[k.ride := x.rides[k.ride].(status := RideAccepted)])
  }

  lemma SelectedOpportunity(x: State, now: Time, k: Pair, j: Pair)
    requires Inv(x, now) && Selecting(x, now, k) && j in x.opportunities
    ensures OpportunityOk(Selected(x, now, k), j)
  {
    hide TripsOk, DriversOk, RidesOk, FleetOk, Busy;
    assert OpportunityOk(x, j);
    var y := Selected(x, now, k);
    if j.ride != k.ride {
      UntouchedOpportunity(x, y, j);
    } else if j == k {
      assert y.offers[j] == DecideOffer(x.offers[k], OfferAccepted, now);
    } else {
      ClosedPairRow(x, y, k.ride, Some(k.driver), now, j);
    }
  }

  lemma SelectedTerms(x: State, now: Time, k: Pair, j: Pair)
    requires Inv(x, now) && Selecting(x, now, k) && j in x.offers
    ensures OfferOk(Selected(x, now, k), j)
    ensures Selected(x, now, k).offers[j].context == x.offers[j].context
  {
    hide TripsOk, DriversOk, RidesOk, FleetOk, Busy;
    assert OfferOk(x, j);
  }

  lemma SelectedTrips(x: State, now: Time, k: Pair)
    requires Inv(x, now) && Selecting(x, now, k)
    ensures TripsOk(Selected(x, now, k))
  {
    hide DriversOk, RidesOk, FleetOk, Busy, OpportunityOk, OfferOk, TripOk;
    var y := Selected(x, now, k);
    TripsPointBack(x);
    forall r | r in y.trips ensures TripOk(y, r) {
      if r == k.ride {
        SelectedTrip(x, now, k);
      } else {
        SelectedTerms(x, now, k, Pair(r, x.trips[r].driver));
        UntouchedTrip(x, y, r);
      }
    }
  }

  lemma SelectedTrip(x: State, now: Time, k: Pair)
    requires Inv(x, now) && Selecting(x, now, k)
    ensures TripOk(Selected(x, now, k), k.ride)
  {
    hide DriversOk, RidesOk, FleetOk, Busy, OpportunityOk, OfferOk;
  }

  lemma SelectedDrivers(x: State, now: Time, k: Pair)
    requires Inv(x, now) && Selecting(x, now, k)
    ensures DriversOk(Selected(x, now, k)) && InPast(Selected(x, now, k), now)
  {
    hide TripsOk, RidesOk, FleetOk, PairsOk;
    var y := Selected(x, now, k);
    assert forall r | r in x.trips && x.trips[r].driver == k.driver :: !ActiveTrip(x.trips[r]);
  }

  lemma SelectedRides(x: State, now: Time, k: Pair)
    requires RidesOk(x) && Selecting(x, now, k)
    ensures RidesOk(Selected(x, now, k))
  {
    var y := Selected(x, now, k);
    assert forall r :: r != k.ride ==> TripRowOf(y, r) == TripRowOf(x, r);
  }

  lemma SelectedFrame(x: State, now: Time, k: Pair)
    requires Selecting(x, now, k)
    ensures var y := Selected(x, now, k);
            && y.fleet == x.fleet && y.policy == x.policy
            && y.opportunities.Keys == x.opportunities.Keys && y.offers.Keys == x.offers.Keys
  {
  }

  lemma SelectedKeepsInv(x: State, now: Time, k: Pair)
    requires Inv(x, now) && Selecting(x, now, k)
    ensures Inv(Selected(x, now, k), now)
  {
    hide TripsOk, DriversOk, RidesOk, InPast, FleetOk, OpportunityOk, OfferOk, Selecting, Selected, PolicyAllowed;
    var y := Selected(x, now, k);
    SelectedFrame(x, now, k);
    forall j | j in y.opportunities { SelectedOpportunity(x, now, k, j); }
    forall j | j in y.offers { SelectedTerms(x, now, k, j); }
    SelectedTrips(x, now, k);
    SelectedDrivers(x, now, k);
    SelectedRides(x, now, k);
  }

  lemma SelectOfferWrites(s: State, now: Time, k: Pair, rider: UserId, version: Time)
    requires SelectOffer(s, now, k, rider, version).result.Ok?
    ensures var x := Settle(s, now);
            Selecting(x, now, k) && x.rides[k.ride].rider == rider
            && SelectOffer(s, now, k, rider, version)
               == Tx(Selected(x, now, k), Ok(NewTrip(rider, k.driver, now, x.offers[k].context)))
  {
  }

  lemma SelectOfferKeepsInv(s: State, now: Time, k: Pair, rider: UserId, version: Time)
    requires Inv(s, now)
    ensures Inv(SelectOffer(s, now, k, rider, version).state, now)
  {
    hide Inv, Settle, Selecting, Selected;
    if SelectOffer(s, now, k, rider, version).result.Ok? {
      SettleKeepsInv(s, now, now);
      SelectOfferWrites(s, now, k, rider, version);
      SelectedKeepsInv(Settle(s, now), now, k);
    }
  }

  // ---- Cancellation ----

  /** What a cancellation writes once the ride and its trip are locked. */
  function Cancelled(x: State, now: Time, r: RideId, actor: Actor): State
    requires r in x.rides
  {
    x.(rides := x.rides[r := x.rides[r].(status := RideCancelled, cancellation := Some(Cancellation(actor, now)))],
       trips := if r in x.trips then x.trips[r := CancelTrip(x.trips[r], now)] else x.trips,
       offers := CloseRideOffers(x.offers, r, None, now),
       opportunities := CloseRideOpportunities(x.opportunities, r, None, now))
  }

  predicate Cancelling(x: State, r: RideId) {
    && r in x.rides
    && (x.rides[r].status.RideRequested? || x.rides[r].status.RideAccepted?)
    && (r in x.trips ==> ActiveTrip(x.trips[r]))
  }

  lemma CancelledFrame(x: State, now: Time, r: RideId, actor: Actor)
    requires Cancelling(x, r)
    ensures var y := Cancelled(x, now, r, actor);
            && y.fleet == x.fleet && y.policy == x.policy && y.trips.Keys == x.trips.Keys
            && y.opportunities.Keys == x.opportunities.Keys && y.offers.Keys == x.offers.Keys
            && y.rides.Keys == x.rides.Keys
            && (forall q | q in x.trips :: y.trips[q].driver == x.trips[q].driver)
            && (forall k | k in x.offers :: y.offers[k].context == x.offers[k].context)
  {
  }

  lemma CancelledOpportunity(x: State, now: Time, r: RideId, actor: Actor, k: Pair)
    requires Cancelling(x, r) && k in x.opportunities && OpportunityOk(x, k)
    ensures OpportunityOk(Cancelled(x, now, r, actor), k)
  {
    hide OpportunityOk;
    var y := Cancelled(x, now, r, actor);
    OpportunityCapable(x, k);
    CancelledFrame(x, now, r, actor);
    if k.ride == r {
      ClosedPairRow(x, y, r, None, now, k);
    } else {
      UntouchedOpportunity(x, y, k);
    }
  }

  lemma CancelledTrips(x: State, now: Time, r: RideId, actor: Actor)
    requires Inv(x, now) && Cancelling(x, r)
    ensures TripsOk(Cancelled(x, now, r, actor))
  {
    hide TripOk, Inv, PairsOk, DriversOk, RidesOk, FleetOk;
    var y := Cancelled(x, now, r, actor);
    assert TripsOk(x) by { InvTrips(x, now); }
    TripsPointBack(x);
    CancelledFrame(x, now, r, actor);
    forall q | q in y.trips ensures TripOk(y, q) {
      if q == r {
        CancelledTrip(x, y, now, r);
      } else {
        UntouchedTrip(x, y, q);
      }
    }
  }

  lemma InvTrips(x: State, now: Time)
    requires Inv(x, now)
    ensures TripsOk(x) && DriversOk(x) && RidesOk(x) && InPast(x, now)
  {
  }

  /** A trip row may move on when its driver, rider and context stay. */
  lemma MovedTrip(x: State, y: State, r: RideId)
    requires r in x.trips && TripOk(x, r) && r in y.trips && TripAgrees(y.trips[r])
    requires y.trips[r].driver == x.trips[r].driver && y.trips[r].rider == x.trips[r].rider
    requires y.trips[r].context == x.trips[r].context
    requires r in y.rides && y.rides[r].rider == x.rides[r].rider
    requires y.offers.Keys == x.offers.Keys && y.opportunities.Keys == x.opportunities.Keys
    requires forall k | k in x.offers :: y.offers[k].context == x.offers[k].context
    ensures TripOk(y, r)
  {
  }

  lemma CancelledTrip(x: State, y: State, now: Time, r: RideId)
    requires r in x.trips && TripOk(x, r) && ActiveTrip(x.trips[r])
    requires r in y.trips && y.trips[r] == CancelTrip(x.trips[r], now)
    requires r in y.rides && y.rides[r].rider == x.rides[r].rider
    requires y.offers.Keys == x.offers.Keys && y.opportunities.Keys == x.opportunities.Keys
    requires forall k | k in x.offers :: y.offers[k].context == x.offers[k].context
    ensures TripOk(y, r)
  {
    assert TripAgrees(x.trips[r]);
    MovedTrip(x, y, r);
  }

  lemma CancelledRest(x: State, now: Time, r: RideId, actor: Actor)
    requires Inv(x, now) && Cancelling(x, r)
    ensures var y := Cancelled(x, now, r, actor); RidesOk(y) && DriversOk(y) && InPast(y, now)
  {
    hide PairsOk, TripsOk, FleetOk;
    var y := Cancelled(x, now, r, actor);
    assert forall q :: q != r ==> TripRowOf(y, q) == TripRowOf(x, q);
  }

  lemma CancelledKeepsInv(x: State, now: Time, r: RideId, actor: Actor)
    requires Inv(x, now) && Cancelling(x, r)
    ensures Inv(Cancelled(x, now, r, actor), now)
  {
    hide TripsOk, DriversOk, RidesOk, InPast, FleetOk, OpportunityOk, OfferOk, PolicyAllowed;
    var y := Cancelled(x, now, r, actor);
    CancelledFrame(x, now, r, actor);
    forall k | k in y.opportunities { CancelledOpportunity(x, now, r, actor, k); }
    forall k | k in y.offers ensures OfferOk(y, k) {
      OfferPointsBack(x, k);
      ClosedTermsRow(x, y, r, None, now, k);
    }
    CancelledTrips(x, now, r, actor);
    CancelledRest(x, now, r, actor);
  }

  lemma CancelWrites(s: State, x: State, now: Time, r: RideId, actor: Actor)
    requires r in x.rides
    ensures var outcome := Cancel(s, x, now, r, actor, if r in x.trips then Some(x.trips[r]) else None);
            && outcome.state == (if outcome.result.Err? then s
                                 else if Cancelling(x, r) then Cancelled(x, now, r, actor) else x)
            && (Cancelling(x, r) ==> outcome.result.Ok?)
  {
  }

  lemma CancelKeepsInv(s: State, x: State, now: Time, r: RideId, actor: Actor)
    requires Inv(s, now) && Inv(x, now) && r in x.rides
    ensures Inv(Cancel(s, x, now, r, actor, if r in x.trips then Some(x.trips[r]) else None).state, now)
  {
    hide Inv, Cancel, Cancelling, Cancelled;
    CancelWrites(s, x, now, r, actor);
    if Cancelling(x, r) { CancelledKeepsInv(x, now, r, actor); }
  }

  lemma CancelsKeepInv(s: State, now: Time, r: RideId, u: UserId)
    requires Inv(s, now)
    ensures Inv(CancelByRider(s, now, r, u).state, now) && Inv(CancelByDriver(s, now, r, u).state, now)
  {
    hide Inv, Settle, Cancel;
    SettleKeepsInv(s, now, now);
    var x := Settle(s, now);
    if r in x.rides {
      CancelKeepsInv(s, x, now, r, RiderActor);
      CancelKeepsInv(s, x, now, r, DriverActor);
    }
  }

  // ---- Trip execution ----

  lemma TripChangeKeepsInv(s: State, y: State, now: Time, r: RideId)
    requires Inv(s, now) && r in s.trips && r in y.trips
    requires y == s.(trips := s.trips[r := y.trips[r]])
    requires var a, b := s.trips[r], y.trips[r];
             && TripAgrees(b) && b == a.(status := b.status, startedAt := b.startedAt, completedAt := b.completedAt,
                                         settlement := b.settlement)
             && (ActiveTrip(b) ==> ActiveTrip(a)) && !a.status.TripCancelled? && !b.status.TripCancelled?
    ensures Inv(y, now)
  {
    hide OpportunityOk, OfferOk, TripOk, FleetOk, TripAgrees, PolicyAllowed;
    forall k | k in y.opportunities ensures OpportunityOk(y, k) {
      OpportunityCapable(s, k);
      UntouchedOpportunity(s, y, k);
    }
    forall k | k in y.offers ensures OfferOk(y, k) {
      OfferPointsBack(s, k);
      UntouchedTerms(s, y, k);
    }
    TripsPointBack(s);
    forall q | q in y.trips ensures TripOk(y, q) {
      if q == r { MovedTrip(s, y, q); } else { UntouchedTrip(s, y, q); }
    }
    TripChangeRest(s, y, now, r);
  }

  lemma TripChangeRest(s: State, y: State, now: Time, r: RideId)
    requires RidesOk(s) && DriversOk(s) && InPast(s, now) && r in s.trips && r in y.trips && r in s.rides
    requires y == s.(trips := s.trips[r := y.trips[r]])
    requires var a, b := s.trips[r], y.trips[r];
             && b == a.(status := b.status, startedAt := b.startedAt, completedAt := b.completedAt,
                        settlement := b.settlement)
             && (ActiveTrip(b) ==> ActiveTrip(a)) && !a.status.TripCancelled? && !b.status.TripCancelled?
    ensures RidesOk(y) && DriversOk(y) && InPast(y, now)
  {
    assert forall q :: q != r ==> TripRowOf(y, q) == TripRowOf(s, q);
    assert RideAgrees(s.rides[r], TripRowOf(s, r));
  }

  lemma ExecutionKeepsInv(s: State, now: Time, r: RideId, d: UserId)
    requires Inv(s, now)
    ensures Inv(Start(s, now, r, d).state, now)
    ensures Inv(Complete(s, now, r, d).state, now)
    ensures Inv(ConfirmCashCollected(s, now, r, d).state, now)
  {
    hide Inv;
    if TripOf(s, r, d) {
      TripRowAgrees(s, now, r);
      if s.trips[r].status.Assigned? { TripChangeKeepsInv(s, Start(s, now, r, d).state, now, r); }
      if s.trips[r].status.InProgress? { TripChangeKeepsInv(s, Complete(s, now, r, d).state, now, r); }
      if s.trips[r].status.Completed? && !s.trips[r].settlement.collected {
        TripChangeKeepsInv(s, ConfirmCashCollected(s, now, r, d).state, now, r);
      }
    }
  }

  lemma TripRowAgrees(s: State, now: Time, r: RideId)
    requires Inv(s, now) && r in s.trips
    ensures TripAgrees(s.trips[r])
  {
    hide PairsOk, DriversOk, RidesOk, FleetOk;
    assert TripOk(s, r);
  }

  // ---- The driver side ----

  /** A fleet may change freely as long as busy drivers keep their selection and nobody loses the capability. */
  lemma FleetChangeKeepsInv(s: State, f: Fleet, now: Time)
    requires Inv(s, now) && FleetOk(f)
    requires s.fleet.capable <= f.capable
    requires forall d | d in s.fleet.selections ::
      d in f.selections && (f.selections[d] == s.fleet.selections[d] || !Busy(s.trips, d))
    requires forall d | d in f.positions :: f.positions[d].updatedAt <= now
    ensures Inv(s.(fleet := f), now)
  {
    var y := s.(fleet := f);
    hide OpportunityOk, OfferOk, TripOk, FleetOk, PolicyAllowed;
    forall k | k in y.opportunities ensures OpportunityOk(y, k) {
      OpportunityCapable(s, k);
      UntouchedOpportunity(s, y, k);
    }
    forall k | k in y.offers ensures OfferOk(y, k) {
      OfferPointsBack(s, k);
      UntouchedTerms(s, y, k);
    }
    TripsPointBack(s);
    forall q | q in y.trips ensures TripOk(y, q) { UntouchedTrip(s, y, q); }
    assert forall q :: TripRowOf(y, q) == TripRowOf(s, q);
  }

  lemma InvFleet(s: State, now: Time)
    requires Inv(s, now)
    ensures FleetOk(s.fleet) && InPast(s, now)
  {
  }

  lemma PresenceKeepsFleet(f: Fleet, now: Time, only: Option<UserId>, skipped: set<UserId>)
    requires FleetOk(f)
    ensures FleetOk(ExpirePresence(f, now, only, skipped))
  {
    var g := ExpirePresence(f, now, only, skipped);
    assert forall d :: OwnsVehicle(g, d) == OwnsVehicle(f, d);
  }

  lemma PresenceKeepsInv(s: State, now: Time, only: Option<UserId>, skipped: set<UserId>)
    requires Inv(s, now)
    ensures Inv(s.(fleet := ExpirePresence(s.fleet, now, only, skipped)), now)
  {
    hide Inv, FleetOk;
    InvFleet(s, now);
    PresenceKeepsFleet(s.fleet, now, only, skipped);
    FleetChangeKeepsInv(s, ExpirePresence(s.fleet, now, only, skipped), now);
  }

  lemma SetOnlineKeepsInv(s: State, now: Time, d: UserId, online: bool)
    requires Inv(s, now)
    ensures Inv(SetOnline(s, now, d, online).state, now)
  {
    hide Inv, FleetOk, CanGoOnline, FreshPosition, Busy, FindByUserID, OwnsVehicle, WithOnline, ExpirePresence;
    var y := SetOnline(s, now, d, online).state;
    if d in s.fleet.profiles {
      InvFleet(s, now);
      var g := WithOnline(s.fleet, d, online);
      OnlineKeepsFleet(s.fleet, d, online);
      PresenceKeepsFleet(g, now, Some(d), {});
      PresenceFrame(g, now, Some(d), {});
      FleetChangeKeepsInv(s, ExpirePresence(g, now, Some(d), {}), now);
    }
  }

  lemma OnlineKeepsFleet(f: Fleet, d: UserId, online: bool)
    requires FleetOk(f) && d in f.profiles
    ensures var g := WithOnline(f, d, online);
            FleetOk(g) && g == f.(profiles := g.profiles)
  {
    var g := WithOnline(f, d, online);
    assert forall u :: OwnsVehicle(g, u) == OwnsVehicle(f, u);
  }

  lemma PresenceFrame(f: Fleet, now: Time, only: Option<UserId>, skipped: set<UserId>)
    ensures ExpirePresence(f, now, only, skipped) == f.(profiles := ExpirePresence(f, now, only, skipped).profiles)
  {
  }

  lemma SelectOperationKeepsInv(s: State, now: Time, d: UserId, v: VehicleId)
    requires Inv(s, now)
    ensures Inv(SelectOperation(s, now, d, v).state, now)
  {
    hide Inv;
    var p := s.(fleet := ExpirePresence(s.fleet, now, Some(d), {}));
    var y := SelectOperation(s, now, d, v).state;
    PresenceKeepsInv(s, now, Some(d), {});
    if y != p {
      InvFleet(p, now);
      assert forall u :: OwnsVehicle(y.fleet, u) == OwnsVehicle(p.fleet, u);
      FleetChangeKeepsInv(p, y.fleet, now);
    }
  }

  lemma UpdateLocationKeepsInv(s: State, now: Time, d: UserId, point: Point)
    requires Inv(s, now)
    ensures Inv(UpdateLocation(s, now, d, point).state, now)
  {
    hide Inv;
    var y := UpdateLocation(s, now, d, point).state;
    if y != s {
      var f := ExpirePresence(s.fleet, now, Some(d), {});
      PresenceKeepsFleet(s.fleet, now, Some(d), {}) by { InvFleet(s, now); }
      InvFleet(s, now);
      assert forall u :: OwnsVehicle(y.fleet, u) == OwnsVehicle(f, u);
      FleetChangeKeepsInv(s, y.fleet, now);
    }
  }

  lemma EnrollKeepsInv(s: State, now: Time, d: UserId, name: string, v: VehicleId, details: VehicleDetails,
                       service: ServiceCode)
    requires Inv(s, now)
    ensures Inv(s.(fleet := Enroll(s.fleet, now, d, name, v, details, service)), now)
  {
    hide Inv;
    var f := Enroll(s.fleet, now, d, name, v, details, service);
    InvFleet(s, now);
    if v !in s.fleet.vehicles {
      assert OwnsVehicle(f, d) by { assert f.vehicles[v].owner == d; }
      forall u | u in f.profiles && u != d ensures OwnsVehicle(f, u) {
        assert OwnsVehicle(s.fleet, u);
        var w :| w in s.fleet.vehicles && s.fleet.vehicles[w].owner == u;
        assert w in f.vehicles && f.vehicles[w].owner == u;
      }
    }
    FleetChangeKeepsInv(s, f, now);
  }

  lemma CatalogKeepsInv(s: State, now: Time, catalog: map<ServiceCode, Service>, capable: set<UserId>)
    requires Inv(s, now) && s.fleet.capable <= capable
    ensures Inv(s.(fleet := s.fleet.(catalog := catalog, capable := capable)), now)
  {
    hide Inv;
    var f := s.fleet.(catalog := catalog, capable := capable);
    InvFleet(s, now);
    assert forall u :: OwnsVehicle(f, u) == OwnsVehicle(s.fleet, u);
    FleetChangeKeepsInv(s, f, now);
  }

  lemma PolicyKeepsInv(s: State, now: Time, p: TimingPolicy)
    requires Inv(s, now) && PolicyAllowed(p)
    ensures Inv(s.(policy := p), now)
  {
    var y := s.(policy := p);
    hide OpportunityOk, OfferOk, TripOk, FleetOk;
    forall k | k in y.opportunities ensures OpportunityOk(y, k) {
      OpportunityCapable(s, k);
      UntouchedOpportunity(s, y, k);
    }
    forall k | k in y.offers ensures OfferOk(y, k) {
      OfferPointsBack(s, k);
      UntouchedTerms(s, y, k);
    }
    TripsPointBack(s);
    forall q | q in y.trips ensures TripOk(y, q) { UntouchedTrip(s, y, q); }
    assert forall q :: TripRowOf(y, q) == TripRowOf(s, q);
    DriversIgnore(s, y);
  }
}
