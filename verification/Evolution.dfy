/** One-shot lifecycles: rows are never removed, and a row changes only by lowering its rank. */
module Evolution {
  import opened Base
  import opened MarketState
  import opened Expiry
  import opened Transactions
  import opened Invariants
  import opened Preservation

  function RideRank(status: RideStatus): nat {
    match status
    case RideRequested => 2
    case RideAccepted => 1
    case _ => 0
  }

  function OpportunityRank(status: OpportunityStatus): nat {
    match status
    case Open => 2
    case Offered => 1
    case _ => 0
  }

  function OfferRank(status: OfferStatus): nat {
    if status.Pending? then 1 else 0
  }

  function TripRank(trip: Trip): nat {
    match trip.status
    case Assigned => 3
    case InProgress => 2
    case Completed => if trip.settlement.collected then 0 else 1
    case TripCancelled => 0
  }

  /** Identity, fare and deadline columns are fixed; any change lowers the rank. */
  predicate RideEvolves(a: Ride, b: Ride) {
    && b == a.(status := b.status, cancellation := b.cancellation)
    && (b == a || RideRank(b.status) < RideRank(a.status))
  }

  predicate OpportunityEvolves(a: Opportunity, b: Opportunity) {
    && b == a.(status := b.status, respondedAt := b.respondedAt)
    && (b == a || OpportunityRank(b.status) < OpportunityRank(a.status))
  }

  predicate OfferEvolves(a: Offer, b: Offer) {
    && b == a.(status := b.status, decidedAt := b.decidedAt, updatedAt := b.updatedAt)
    && (b == a || OfferRank(b.status) < OfferRank(a.status))
  }

  predicate TripEvolves(a: Trip, b: Trip) {
    && b == a.(status := b.status, startedAt := b.startedAt, completedAt := b.completedAt,
               cancelledAt := b.cancelledAt, settlement := b.settlement)
    && (b == a || TripRank(b) < TripRank(a))
  }

  ghost predicate RidesEvolve(a: map<RideId, Ride>, b: map<RideId, Ride>) {
    forall r | r in a :: r in b && RideEvolves(a[r], b[r])
  }

  ghost predicate OpportunitiesEvolve(a: map<Pair, Opportunity>, b: map<Pair, Opportunity>) {
    forall k | k in a :: k in b && OpportunityEvolves(a[k], b[k])
  }

  ghost predicate OffersEvolve(a: map<Pair, Offer>, b: map<Pair, Offer>) {
    forall k | k in a :: k in b && OfferEvolves(a[k], b[k])
  }

  ghost predicate TripsEvolve(a: map<RideId, Trip>, b: map<RideId, Trip>) {
    forall r | r in a :: r in b && TripEvolves(a[r], b[r])
  }

  ghost predicate Evolves(s: State, y: State) {
    && RidesEvolve(s.rides, y.rides)
    && OpportunitiesEvolve(s.opportunities, y.opportunities)
    && OffersEvolve(s.offers, y.offers)
    && TripsEvolve(s.trips, y.trips)
  }

  lemma EvolvesTransitive(s: State, x: State, y: State)
    requires Evolves(s, x) && Evolves(x, y)
    ensures Evolves(s, y)
  {
    forall r | r in s.rides ensures r in y.rides && RideEvolves(s.rides[r], y.rides[r]) {
      assert r in x.rides && RideEvolves(s.rides[r], x.rides[r]) && RideEvolves(x.rides[r], y.rides[r]);
    }
    forall k | k in s.opportunities
      ensures k in y.opportunities && OpportunityEvolves(s.opportunities[k], y.opportunities[k])
    {
      assert k in x.opportunities && OpportunityEvolves(x.opportunities[k], y.opportunities[k]);
    }
    forall k | k in s.offers ensures k in y.offers && OfferEvolves(s.offers[k], y.offers[k]) {
      assert k in x.offers && OfferEvolves(x.offers[k], y.offers[k]);
    }
    forall r | r in s.trips ensures r in y.trips && TripEvolves(s.trips[r], y.trips[r]) {
      assert r in x.trips && TripEvolves(x.trips[r], y.trips[r]);
    }
  }

  lemma OfferSweepsEvolve(s: State, now: Time)
    ensures OffersEvolve(s.offers, ExpirePendingOffers(s.offers, now))
    ensures OffersEvolve(s.offers, CloseOffersOfClosedRides(s.offers, s.rides, now))
  {
  }

  lemma OpportunitySweepsEvolve(s: State, now: Time)
    ensures OpportunitiesEvolve(s.opportunities, ExpireOpenWindows(s.opportunities, now))
    ensures OpportunitiesEvolve(s.opportunities, CloseOpportunitiesOfClosedRides(s.opportunities, s.rides, now))
  {
  }

  lemma OfferedSweepEvolves(s: State, now: Time)
    ensures OpportunitiesEvolve(s.opportunities, ExpireOfferedOpportunities(s.opportunities, s.offers, now))
    ensures RidesEvolve(s.rides, ExpireRides(s.rides, s.trips, now))
  {
  }

  lemma OneTableEvolves(s: State, y: State)
    requires || (y == s.(offers := y.offers) && OffersEvolve(s.offers, y.offers))
             || (y == s.(opportunities := y.opportunities) && OpportunitiesEvolve(s.opportunities, y.opportunities))
             || (y == s.(rides := y.rides) && RidesEvolve(s.rides, y.rides))
    ensures Evolves(s, y)
  {
  }

  lemma StatementEvolves(s: State, i: nat, now: Time)
    requires i < STATEMENTS
    ensures Evolves(s, ExpireStatement(s, i, now))
  {
    hide ExpirePendingOffers, ExpireOfferedOpportunities, ExpireOpenWindows, ExpireRides,
         CloseOffersOfClosedRides, CloseOpportunitiesOfClosedRides,
         OffersEvolve, RidesEvolve, OpportunitiesEvolve, Evolves;
    match i {
      case 0 => OfferSweepsEvolve(s, now);
      case 1 => OfferedSweepEvolves(s, now);
      case 2 => OpportunitySweepsEvolve(s, now);
      case 3 => OfferedSweepEvolves(s, now);
      case 4 => OfferSweepsEvolve(s, now);
      case 5 => OpportunitySweepsEvolve(s, now);
    }
    OneTableEvolves(s, ExpireStatement(s, i, now));
  }

  lemma SettleEvolves(s: State, now: Time)
    ensures Evolves(s, Settle(s, now))
  {
  }

  lemma CloseRideEvolves(offers: map<Pair, Offer>, opportunities: map<Pair, Opportunity>, r: RideId,
                         except: Option<UserId>, now: Time)
    ensures OffersEvolve(offers, CloseRideOffers(offers, r, except, now))
    ensures OpportunitiesEvolve(opportunities, CloseRideOpportunities(opportunities, r, except, now))
  {
  }

  lemma SelectedEvolves(x: State, now: Time, k: Pair)
    requires Selecting(x, now, k)
    ensures Evolves(x, Selected(x, now, k))
  {
    hide Busy, CloseRideOffers, CloseRideOpportunities;
    var accepted := x.offers[k := DecideOffer(x.offers[k], OfferAccepted, now)];
    var taken := AcceptOpportunity(x.opportunities, k);
    CloseRideEvolves(accepted, taken, k.ride, Some(k.driver), now);
    AcceptingEvolves(x, now, k);
    OfferChain(x.offers, accepted, CloseRideOffers(accepted, k.ride, Some(k.driver), now));
    OpportunityChain(x.opportunities, taken, CloseRideOpportunities(taken, k.ride, Some(k.driver), now));
  }

  lemma AcceptingEvolves(x: State, now: Time, k: Pair)
    requires Selecting(x, now, k)
    ensures OffersEvolve(x.offers, x.offers[k := DecideOffer(x.offers[k], OfferAccepted, now)])
    ensures OpportunitiesEvolve(x.opportunities, AcceptOpportunity(x.opportunities, k))
  {
  }

  lemma OfferChain(a: map<Pair, Offer>, b: map<Pair, Offer>, c: map<Pair, Offer>)
    requires OffersEvolve(a, b) && OffersEvolve(b, c)
    ensures OffersEvolve(a, c)
  {
    forall k | k in a ensures k in c && OfferEvolves(a[k], c[k]) { assert k in b; }
  }

  lemma OpportunityChain(a: map<Pair, Opportunity>, b: map<Pair, Opportunity>, c: map<Pair, Opportunity>)
    requires OpportunitiesEvolve(a, b) && OpportunitiesEvolve(b, c)
    ensures OpportunitiesEvolve(a, c)
  {
    forall k | k in a ensures k in c && OpportunityEvolves(a[k], c[k]) { assert k in b; }
  }

  lemma CancelledEvolves(x: State, now: Time, r: RideId, actor: Actor)
    requires Cancelling(x, r)
    ensures Evolves(x, Cancelled(x, now, r, actor))
  {
    CloseRideEvolves(x.offers, x.opportunities, r, None, now);
  }

  lemma SameEvolves(s: State)
    ensures Evolves(s, s)
  {
  }

  lemma SkipEvolves(s: State, now: Time, k: Pair)
    ensures Evolves(s, Skip(s, now, k).state)
  {
    hide Settle, Evolves;
    var x := Settle(s, now);
    var y := Skip(s, now, k).state;
    SettleEvolves(s, now);
    SameEvolves(s);
    if y != s {
      OneOpportunityEvolves(x, k, x.opportunities[k].(status := DriverSkipped, respondedAt := Some(now)));
      EvolvesTransitive(s, x, y);
    }
  }

  lemma OneOpportunityEvolves(x: State, k: Pair, o: Opportunity)
    requires k in x.opportunities && OpportunityEvolves(x.opportunities[k], o)
    ensures Evolves(x, x.(opportunities := x.opportunities[k := o]))
  {
  }

  lemma RejectEvolves(s: State, now: Time, k: Pair, rider: UserId)
    ensures Evolves(s, Reject(s, now, k, rider).state)
  {
    hide Settle, Evolves;
    var x := Settle(s, now);
    var y := Reject(s, now, k, rider).state;
    SettleEvolves(s, now);
    SameEvolves(s);
    if y != s && y != x {
      RejectingEvolves(x, now, k);
      EvolvesTransitive(s, x, y);
    }
  }

  lemma RejectingEvolves(x: State, now: Time, k: Pair)
    requires k in x.offers && x.offers[k].status.Pending?
    ensures Evolves(x, x.(offers := x.offers[k := DecideOffer(x.offers[k], Rejected, now)],
                          opportunities := RejectOpportunity(x.opportunities, k)))
  {
  }

  lemma UpsertEvolves(s: State, now: Time, k: Pair, amount: int, minimum: int, maximum: int, currency: string)
    ensures Evolves(s, Upsert(s, now, k, amount, minimum, maximum, currency).state)
  {
    hide Settle, Evolves, Eligible, RideLive;
    var x := Settle(s, now);
    var y := Upsert(s, now, k, amount, minimum, maximum, currency).state;
    SettleEvolves(s, now);
    SameEvolves(s);
    if y != s {
      OfferingEvolves(x, y, now, k);
      EvolvesTransitive(s, x, y);
    }
  }

  lemma OfferingEvolves(x: State, y: State, now: Time, k: Pair)
    requires k in x.opportunities && x.opportunities[k].status.Open? && k !in x.offers && k in y.offers
    requires y == x.(offers := x.offers[k := y.offers[k]],
      opportunities := x.opportunities[k := x.opportunities[k].(status := Offered, respondedAt := Some(now))])
    ensures Evolves(x, y)
  {
  }

  lemma SelectOfferEvolves(s: State, now: Time, k: Pair, rider: UserId, version: Time)
    ensures Evolves(s, SelectOffer(s, now, k, rider, version).state)
  {
    hide Settle, Evolves, Selecting, Selected;
    var x := Settle(s, now);
    SettleEvolves(s, now);
    SameEvolves(s);
    if SelectOffer(s, now, k, rider, version).result.Ok? {
      SelectOfferWrites(s, now, k, rider, version);
      SelectedEvolves(x, now, k);
      EvolvesTransitive(s, x, Selected(x, now, k));
    }
  }

  lemma CancelEvolves(s: State, now: Time, r: RideId, actor: Actor)
    requires r in Settle(s, now).rides
    ensures var x := Settle(s, now);
            Evolves(s, Cancel(s, x, now, r, actor, if r in x.trips then Some(x.trips[r]) else None).state)
  {
    hide Settle, Evolves, Cancel, Cancelling, Cancelled;
    var x := Settle(s, now);
    SettleEvolves(s, now);
    SameEvolves(s);
    CancelWrites(s, x, now, r, actor);
    if Cancelling(x, r) {
      CancelledEvolves(x, now, r, actor);
      EvolvesTransitive(s, x, Cancelled(x, now, r, actor));
    }
  }

  lemma CancelsEvolve(s: State, now: Time, r: RideId, u: UserId)
    ensures Evolves(s, CancelByRider(s, now, r, u).state) && Evolves(s, CancelByDriver(s, now, r, u).state)
  {
    hide Settle, Evolves, Cancel;
    SameEvolves(s);
    if r in Settle(s, now).rides {
      CancelEvolves(s, now, r, RiderActor);
      CancelEvolves(s, now, r, DriverActor);
    }
  }

  lemma ExecutionEvolves(s: State, now: Time, r: RideId, d: UserId)
    ensures Evolves(s, Start(s, now, r, d).state)
    ensures Evolves(s, Complete(s, now, r, d).state)
    ensures Evolves(s, ConfirmCashCollected(s, now, r, d).state)
  {
    hide Evolves;
    SameEvolves(s);
    if TripOf(s, r, d) {
      if s.trips[r].status.Assigned? { OneTripEvolves(s, r, Start(s, now, r, d).state.trips[r]); }
      if s.trips[r].status.InProgress? { OneTripEvolves(s, r, Complete(s, now, r, d).state.trips[r]); }
      if s.trips[r].status.Completed? && !s.trips[r].settlement.collected {
        OneTripEvolves(s, r, ConfirmCashCollected(s, now, r, d).state.trips[r]);
      }
    }
  }

  lemma OneTripEvolves(s: State, r: RideId, trip: Trip)
    requires r in s.trips && TripEvolves(s.trips[r], trip)
    ensures Evolves(s, s.(trips := s.trips[r := trip]))
  {
  }

  lemma DiscoverEvolves(s: State, now: Time, d: UserId, limit: nat, metric: Metric)
    ensures Evolves(s, Discover(s, now, d, limit, metric).state)
  {
    hide Settle, Evolves, Openable, OpenedBy, WithOpened, Shown;
    var x := Settle(s, now);
    var chosen := OpenedBy(x, now, d, limit, metric);
    SettleEvolves(s, now);
    SameEvolves(s);
    OpenedByIsOpenable(x, now, d, limit, metric);
    OpeningEvolves(x, now, d, chosen);
    EvolvesTransitive(s, x, WithOpened(x, now, d, chosen));
  }

  lemma OpeningEvolves(x: State, now: Time, d: UserId, chosen: set<RideId>)
    requires chosen <= Openable(x, now, d)
    ensures Evolves(x, WithOpened(x, now, d, chosen))
  {
    hide RideLive, Eligible;
    forall k | k in x.opportunities ensures k !in PairsOf(chosen, d) {
      assert k in PairsOf(chosen, d) ==> k == Pair(k.ride, d) && k.ride in Openable(x, now, d);
    }
  }
}
