/** Every transaction replies the same, and leaves the same meaning, on a state and on its meaning. */
module TransparentOutcomes {
  import opened Base
  import opened MarketState
  import opened Expiry
  import opened Fares
  import opened Transactions
  import opened Invariants
  import opened Preservation
  import opened Discovery
  import opened Transparency

  /** Equal replies, and committed states with equal meaning. */
  predicate SameOutcome<T(==)>(a: Tx<T>, b: Tx<T>, now: Time) {
    a.result == b.result && Live(a.state, now) == Live(b.state, now)
  }

  /** Erasing leaves every column a live row's reader can see. */
  lemma ErasedRows(x: State)
    ensures var e := Erase(x);
      && e.rides == x.rides && e.trips == x.trips && e.fleet == x.fleet && e.policy == x.policy
      && e.offers.Keys == x.offers.Keys && e.opportunities.Keys == x.opportunities.Keys
      && (forall k | k in x.offers ::
            && (e.offers[k].status.Pending? <==> x.offers[k].status.Pending?)
            && (e.offers[k].status.Rejected? <==> x.offers[k].status.Rejected?)
            && (x.offers[k].status.Pending? || x.offers[k].status.Rejected? ==> e.offers[k] == x.offers[k])
            && e.offers[k].context == x.offers[k].context)
      && (forall k | k in x.opportunities ::
            && (e.opportunities[k].status.Open? <==> x.opportunities[k].status.Open?)
            && (e.opportunities[k].status.Offered? <==> x.opportunities[k].status.Offered?)
            && (x.opportunities[k].status.Open? || x.opportunities[k].status.Offered?
                ==> e.opportunities[k] == x.opportunities[k]))
  {
  }

  /** Settled states that erase alike mean the same. */
  lemma SettledAlike(y: State, z: State, now: Time)
    requires Settled(y, now) && Settled(z, now) && Erase(y) == Erase(z)
    ensures Live(y, now) == Live(z, now)
  {
    hide Settled, Erase, Live;
    LiveOfSettled(y, now);
    LiveOfSettled(z, now);
  }

  lemma Settling(s: State, now: Time)
    ensures var x := Settle(s, now);
            && Settled(x, now) && Live(s, now) == Erase(x) && Settle(Live(s, now), now) == Erase(x)
            && Settled(Erase(x), now)
            && Live(Live(s, now), now) == Live(s, now) && Live(x, now) == Live(s, now)
            && Live(Erase(x), now) == Live(s, now)
  {
    hide Settled, Settle, Erase;
    SettleIsComplete(s, now);
    EraseStaysSettled(Settle(s, now), now);
    SettleOfLive(s, now);
  }

  // ---- Reads ----

  lemma MarketTransparent(s: State, now: Time, r: RideId)
    ensures Market(Live(s, now), now, r) == Market(s, now, r)
  {
    hide LiveOffer, LiveOpportunity, Live;
    LiveRows(s, now);
  }

  lemma ListedTransparent(s: State, now: Time, k: Pair)
    requires RideLive(s, k.ride, now)
    ensures RideLive(Live(s, now), k.ride, now)
    ensures Listed(Live(s, now), now, k) == Listed(s, now, k)
    ensures Listed(s, now, k) ==> Live(s, now).offers[k] == s.offers[k]
  {
    hide Live;
    LiveRows(s, now);
    assert !RideClosing(s, k.ride, now);
  }

  lemma RiderItemTransparent(s: State, now: Time, k: Pair, metric: Metric)
    requires RideLive(s, k.ride, now) && k in s.offers && Listed(s, now, k)
    ensures var y := Live(s, now);
            && RideLive(y, k.ride, now) && k in y.offers && Listed(y, now, k)
            && RiderItem(y, now, k, metric) == RiderItem(s, now, k, metric)
  {
    hide Live, LiveOffer, LiveOpportunity, Equipped, Present, Busy;
    ListedTransparent(s, now, k);
    LiveRows(s, now);
  }

  lemma ListTransparent(s: State, now: Time, r: RideId, rider: UserId, metric: Metric)
    ensures ListForRider(Live(s, now), now, r, rider, metric) == ListForRider(s, now, r, rider, metric)
  {
    hide Live, Listed, LiveOffer, LiveOpportunity, RiderItem;
    var y := Live(s, now);
    LiveRows(s, now);
    if RideLive(s, r, now) && s.rides[r].rider == rider {
      var ours := ListForRider(s, now, r, rider, metric).value;
      var theirs := ListForRider(y, now, r, rider, metric).value;
      forall item | item in ours ensures item in theirs {
        var k :| k in s.offers && k.ride == r && Listed(s, now, k) && item == RiderItem(s, now, k, metric);
        RiderItemTransparent(s, now, k, metric);
      }
      forall item | item in theirs ensures item in ours {
        var k :| k in y.offers && k.ride == r && Listed(y, now, k) && item == RiderItem(y, now, k, metric);
        ListedTransparent(s, now, k);
        RiderItemTransparent(s, now, k, metric);
      }
      assert ours == theirs;
    }
  }

  // ---- Writes to one pair ----

  function WritePair(x: State, k: Pair, offer: Option<Offer>, o: Opportunity): State {
    x.(offers := if offer.Some? then x.offers[k := offer.value] else x.offers,
       opportunities := x.opportunities[k := o])
  }

  /** The written rows are live at `now`, or dead for good. */
  predicate WriteSettled(x: State, k: Pair, offer: Option<Offer>, o: Opportunity, now: Time) {
    && (offer.Some? && offer.value.status.Pending? ==> offer.value.expiresAt > now && !RideClosed(x.rides, k.ride))
    && !o.status.Open?
    && (o.status.Offered? ==> offer.Some? && !offer.value.status.Expired? && !RideClosed(x.rides, k.ride))
    && (offer.Some? && offer.value.status.Expired? ==> !o.status.Offered?)
  }

  lemma ErasedPutOffer(offers: map<Pair, Offer>, k: Pair, offer: Offer)
    ensures ErasedOffers(ErasedOffers(offers)[k := offer]) == ErasedOffers(offers[k := offer])
  {
  }

  lemma ErasedPutOpportunity(opportunities: map<Pair, Opportunity>, k: Pair, o: Opportunity)
    ensures ErasedOpportunities(ErasedOpportunities(opportunities)[k := o]) == ErasedOpportunities(opportunities[k := o])
  {
  }

  lemma WriteStaysSettled(x: State, k: Pair, offer: Option<Offer>, o: Opportunity, now: Time)
    requires Settled(x, now) && WriteSettled(x, k, offer, o, now)
    ensures Settled(WritePair(x, k, offer, o), now)
  {
  }

  lemma WritesAlike(x: State, k: Pair, offer: Option<Offer>, o: Opportunity, now: Time)
    requires Settled(x, now) && Settled(Erase(x), now) && WriteSettled(x, k, offer, o, now)
    ensures Live(WritePair(Erase(x), k, offer, o), now) == Live(WritePair(x, k, offer, o), now)
  {
    hide Settled, Live, ErasedOffers, ErasedOpportunities;
    var e := Erase(x);
    WriteStaysSettled(x, k, offer, o, now);
    WriteStaysSettled(e, k, offer, o, now);
    EraseTwice(x);
    if offer.Some? { ErasedPutOffer(x.offers, k, offer.value); }
    ErasedPutOpportunity(x.opportunities, k, o);
    SettledAlike(WritePair(e, k, offer, o), WritePair(x, k, offer, o), now);
  }

  // ---- Driver responses and rejections ----

  lemma SkipTransparent(s: State, now: Time, k: Pair)
    ensures SameOutcome(Skip(Live(s, now), now, k), Skip(s, now, k), now)
  {
    hide Settle, Live, Erase, Settled;
    var x := Settle(s, now);
    Settling(s, now);
    ErasedRows(x);
    if CanSkip(x, now, k) {
      WritesAlike(x, k, None, x.opportunities[k].(status := DriverSkipped, respondedAt := Some(now)), now);
    }
  }

  lemma RejectTransparent(s: State, now: Time, k: Pair, rider: UserId)
    requires Inv(s, now)
    ensures SameOutcome(Reject(Live(s, now), now, k, rider), Reject(s, now, k, rider), now)
  {
    hide Settle, Live, Erase, Settled, Inv;
    var x := Settle(s, now);
    Settling(s, now);
    ErasedRows(x);
    SettleKeepsInv(s, now, now);
    if RideLive(x, k.ride, now) && k in x.offers && x.offers[k].status.Pending? {
      PendingIsOffered(x, now, k);
      WritesAlike(x, k, Some(DecideOffer(x.offers[k], Rejected, now)),
                  x.opportunities[k].(status := RiderRejected), now);
    }
  }

  lemma PendingIsOffered(x: State, now: Time, k: Pair)
    requires Inv(x, now) && RideLive(x, k.ride, now) && k in x.offers && x.offers[k].status.Pending?
    ensures k in x.opportunities && x.opportunities[k].status.Offered?
  {
    hide TripsOk, RidesOk, DriversOk, FleetOk;
    assert OfferOk(x, k) && OpportunityOk(x, k);
  }

  lemma UpsertTransparent(s: State, now: Time, k: Pair, amount: int, minimum: int, maximum: int, currency: string)
    requires PolicyAllowed(s.policy)
    ensures SameOutcome(Upsert(Live(s, now), now, k, amount, minimum, maximum, currency),
                        Upsert(s, now, k, amount, minimum, maximum, currency), now)
  {
    hide Settle, Live, Erase, Settled, Equipped, Present, Busy, OfferRowAllowed;
    var x := Settle(s, now);
    Settling(s, now);
    ErasedRows(x);
    var ours := Upsert(s, now, k, amount, minimum, maximum, currency);
    if ours.result.Ok? {
      assert x.policy == s.policy by { SettleFrame(s, now); }
      WritesAlike(x, k, Some(ours.result.value), x.opportunities[k].(status := Offered, respondedAt := Some(now)), now);
    }
  }

  lemma SettleFrame(s: State, now: Time)
    ensures var x := Settle(s, now);
            && x.policy == s.policy && x.fleet == s.fleet && x.trips == s.trips && x.rides.Keys == s.rides.Keys
  {
  }

  // ---- Selection and cancellation ----

  lemma ClosedOffersAlike(offers: map<Pair, Offer>, r: RideId, except: Option<UserId>, now: Time)
    ensures ErasedOffers(CloseRideOffers(ErasedOffers(offers), r, except, now))
         == ErasedOffers(CloseRideOffers(offers, r, except, now))
  {
  }

  lemma ClosedOpportunitiesAlike(opportunities: map<Pair, Opportunity>, r: RideId, except: Option<UserId>, now: Time)
    ensures ErasedOpportunities(CloseRideOpportunities(ErasedOpportunities(opportunities), r, except, now))
         == ErasedOpportunities(CloseRideOpportunities(opportunities, r, except, now))
  {
  }

  lemma ClosedTablesAlike(offers: map<Pair, Offer>, opportunities: map<Pair, Opportunity>, r: RideId,
                          except: Option<UserId>, now: Time)
    ensures ErasedOffers(CloseRideOffers(ErasedOffers(offers), r, except, now))
         == ErasedOffers(CloseRideOffers(offers, r, except, now))
    ensures ErasedOpportunities(CloseRideOpportunities(ErasedOpportunities(opportunities), r, except, now))
         == ErasedOpportunities(CloseRideOpportunities(opportunities, r, except, now))
  {
    hide ErasedOffers, ErasedOpportunities, CloseRideOffers, CloseRideOpportunities;
    ClosedOffersAlike(offers, r, except, now);
    ClosedOpportunitiesAlike(opportunities, r, except, now);
  }

  /** Erasing before and after: tables that erase alike still do once a ride's rows are closed. */
  lemma ClosedErasures(a: map<Pair, Offer>, b: map<Pair, Offer>, c: map<Pair, Opportunity>, d: map<Pair, Opportunity>,
                       r: RideId, except: Option<UserId>, now: Time)
    requires ErasedOffers(a) == ErasedOffers(b) && ErasedOpportunities(c) == ErasedOpportunities(d)
    ensures ErasedOffers(CloseRideOffers(a, r, except, now)) == ErasedOffers(CloseRideOffers(b, r, except, now))
    ensures ErasedOpportunities(CloseRideOpportunities(c, r, except, now))
         == ErasedOpportunities(CloseRideOpportunities(d, r, except, now))
  {
    hide ErasedOffers, ErasedOpportunities, CloseRideOffers, CloseRideOpportunities;
    ClosedTablesAlike(a, c, r, except, now);
    ClosedTablesAlike(b, d, r, except, now);
  }

  lemma SelectedStaysSettled(x: State, now: Time, k: Pair)
    requires Settled(x, now) && Selecting(x, now, k)
    ensures Settled(Selected(x, now, k), now)
  {
    hide Busy;
  }

  lemma SelectedAlike(x: State, now: Time, k: Pair)
    requires Settled(x, now) && Settled(Erase(x), now) && Selecting(x, now, k) && Selecting(Erase(x), now, k)
    ensures Live(Selected(Erase(x), now, k), now) == Live(Selected(x, now, k), now)
  {
    hide Settled, Live, Busy, CloseRideOffers, CloseRideOpportunities;
    var e := Erase(x);
    var a, b := Selected(e, now, k), Selected(x, now, k);
    SelectedStaysSettled(x, now, k);
    SelectedStaysSettled(e, now, k);
    ErasedRows(x);
    hide ErasedOffers, ErasedOpportunities;
    var won := DecideOffer(x.offers[k], OfferAccepted, now);
    var taken := x.opportunities[k].(status := OpportunityAccepted);
    ErasedPutOffer(x.offers, k, won);
    ErasedPutOpportunity(x.opportunities, k, taken);
    ClosedErasures(e.offers[k := won], x.offers[k := won], e.opportunities[k := taken], x.opportunities[k := taken],
                   k.ride, Some(k.driver), now);
    SettledAlike(a, b, now);
  }

  lemma SelectOfferTransparent(s: State, now: Time, k: Pair, rider: UserId, version: Time)
    ensures SameOutcome(SelectOffer(Live(s, now), now, k, rider, version), SelectOffer(s, now, k, rider, version), now)
  {
    hide Settle, Live, Erase, Settled, Selecting, Selected, Equipped, Present, Busy;
    var x := Settle(s, now);
    Settling(s, now);
    ErasedRows(x);
    var ours := SelectOffer(s, now, k, rider, version);
    var theirs := SelectOffer(Live(s, now), now, k, rider, version);
    assert ours.result == theirs.result;
    if ours.result.Ok? {
      SelectOfferWrites(s, now, k, rider, version);
      SelectOfferWrites(Live(s, now), now, k, rider, version);
      SelectedAlike(x, now, k);
    }
  }

  lemma CancelledStaysSettled(x: State, now: Time, r: RideId, actor: Actor)
    requires Settled(x, now) && r in x.rides
    ensures Settled(Cancelled(x, now, r, actor), now)
  {
  }

  lemma CancelledAlike(x: State, now: Time, r: RideId, actor: Actor)
    requires Settled(x, now) && Settled(Erase(x), now) && r in x.rides
    ensures Live(Cancelled(Erase(x), now, r, actor), now) == Live(Cancelled(x, now, r, actor), now)
  {
    hide Settled, Live, CloseRideOffers, CloseRideOpportunities, ErasedOffers, ErasedOpportunities;
    CancelledStaysSettled(x, now, r, actor);
    CancelledStaysSettled(Erase(x), now, r, actor);
    EraseTwice(x);
    ClosedErasures(Erase(x).offers, x.offers, Erase(x).opportunities, x.opportunities, r, None, now);
    SettledAlike(Cancelled(Erase(x), now, r, actor), Cancelled(x, now, r, actor), now);
  }

  /** The reply to a cancellation reads only the ride row and the trip. */
  lemma CancelReply(s: State, x: State, y: State, e: State, now: Time, r: RideId, actor: Actor)
    requires r in x.rides && e.rides == x.rides && e.trips == x.trips
    ensures var trip := if r in x.trips then Some(x.trips[r]) else None;
            Cancel(y, e, now, r, actor, trip).result == Cancel(s, x, now, r, actor, trip).result
  {
  }

  lemma CancelTransparent(s: State, now: Time, r: RideId, actor: Actor)
    requires r in Settle(s, now).rides
    ensures var x := Settle(s, now);
            var e := Erase(x);
            var trip := if r in x.trips then Some(x.trips[r]) else None;
            && r in e.rides
            && SameOutcome(Cancel(Live(s, now), e, now, r, actor, trip), Cancel(s, x, now, r, actor, trip), now)
  {
    hide Settle, Live, Erase, Settled, Cancelled, Cancel;
    var x := Settle(s, now);
    var e := Erase(x);
    Settling(s, now);
    ErasedRows(x);
    CancelReply(s, x, Live(s, now), e, now, r, actor);
    CancelWrites(s, x, now, r, actor);
    CancelWrites(Live(s, now), e, now, r, actor);
    CancelledAlike(x, now, r, actor);
  }

  lemma CancelsTransparent(s: State, now: Time, r: RideId, u: UserId)
    ensures SameOutcome(CancelByRider(Live(s, now), now, r, u), CancelByRider(s, now, r, u), now)
    ensures SameOutcome(CancelByDriver(Live(s, now), now, r, u), CancelByDriver(s, now, r, u), now)
  {
    hide Settle, Live, Erase, Settled, Cancel;
    var x := Settle(s, now);
    Settling(s, now);
    ErasedRows(x);
    if r in x.rides {
      CancelTransparent(s, now, r, RiderActor);
      CancelTransparent(s, now, r, DriverActor);
    }
  }

  // ---- Transactions that do not run the sweep ----

  /** Trip rows, the fleet and the policy can be replaced before or after applying deadlines. */
  lemma ReplaceOthers(s: State, now: Time, trips: map<RideId, Trip>, fleet: Fleet, policy: TimingPolicy)
    requires trips.Keys == s.trips.Keys
    ensures Live(s.(trips := trips, fleet := fleet, policy := policy), now)
         == Live(s, now).(trips := trips, fleet := fleet, policy := policy)
    ensures Live(Live(s, now).(trips := trips, fleet := fleet, policy := policy), now)
         == Live(s, now).(trips := trips, fleet := fleet, policy := policy)
  {
    ReplaceInSettle(s, now, trips, fleet, policy);
    ReplaceInSettle(Live(s, now), now, trips, fleet, policy);
    SettleOfLive(s, now);
    hide Settle;
  }

  lemma ReplaceInSettle(s: State, now: Time, trips: map<RideId, Trip>, fleet: Fleet, policy: TimingPolicy)
    requires trips.Keys == s.trips.Keys
    ensures Settle(s.(trips := trips, fleet := fleet, policy := policy), now)
         == Settle(s, now).(trips := trips, fleet := fleet, policy := policy)
  {
    hide SettledRide, SettledOffer, SettledOpportunity, OfferLapsed;
    var y := s.(trips := trips, fleet := fleet, policy := policy);
    assert forall r :: RideClosing(y, r, now) == RideClosing(s, r, now);
    assert SettledOffers(y, now) == SettledOffers(s, now);
    assert SettledOpportunities(y, now) == SettledOpportunities(s, now);
    assert ExpireRides(y.rides, y.trips, now) == ExpireRides(s.rides, s.trips, now);
  }

  lemma LiveFrame(s: State, now: Time)
    ensures var y := Live(s, now);
            && y.trips == s.trips && y.fleet == s.fleet && y.policy == s.policy && y.rides.Keys == s.rides.Keys
  {
  }

  lemma ExecutionTransparent(s: State, now: Time, r: RideId, d: UserId)
    ensures SameOutcome(Start(Live(s, now), now, r, d), Start(s, now, r, d), now)
    ensures SameOutcome(Complete(Live(s, now), now, r, d), Complete(s, now, r, d), now)
    ensures SameOutcome(ConfirmCashCollected(Live(s, now), now, r, d), ConfirmCashCollected(s, now, r, d), now)
  {
    hide Live;
    LiveFrame(s, now);
    SettleOfLive(s, now);
    if TripOf(s, r, d) {
      TripPutTransparent(s, now, r, s.trips[r].(status := InProgress, startedAt := Some(now)));
      TripPutTransparent(s, now, r, s.trips[r].(status := Completed, completedAt := Some(now)));
      TripPutTransparent(s, now, r, s.trips[r].(settlement :=
        Settlement(true, Some("cash"), Some(now), Some(s.trips[r].driver))));
    }
  }

  lemma TripPutTransparent(s: State, now: Time, r: RideId, trip: Trip)
    requires r in s.trips && r in Live(s, now).trips
    ensures Live(Live(s, now).(trips := Live(s, now).trips[r := trip]), now) == Live(s.(trips := s.trips[r := trip]), now)
  {
    hide Live;
    LiveFrame(s, now);
    ReplaceOthers(s, now, s.trips[r := trip], s.fleet, s.policy);
    var y := Live(s, now);
    var trips := s.trips[r := trip];
    assert y.(trips := trips) == y.(trips := trips, fleet := s.fleet, policy := s.policy);
    assert s.(trips := trips) == s.(trips := trips, fleet := s.fleet, policy := s.policy);
  }

  lemma FleetPutTransparent(s: State, now: Time, f: Fleet)
    ensures Live(Live(s, now).(fleet := f), now) == Live(s.(fleet := f), now)
  {
    hide Live;
    LiveFrame(s, now);
    ReplaceOthers(s, now, s.trips, f, s.policy);
    var y := Live(s, now);
    assert y.(fleet := f) == y.(trips := s.trips, fleet := f, policy := s.policy);
    assert s.(fleet := f) == s.(trips := s.trips, fleet := f, policy := s.policy);
  }

  lemma PolicyPutTransparent(s: State, now: Time, p: TimingPolicy)
    ensures Live(Live(s, now).(policy := p), now) == Live(s.(policy := p), now)
  {
    hide Live;
    LiveFrame(s, now);
    ReplaceOthers(s, now, s.trips, s.fleet, p);
    var y := Live(s, now);
    assert y.(policy := p) == y.(trips := s.trips, fleet := s.fleet, policy := p);
    assert s.(policy := p) == s.(trips := s.trips, fleet := s.fleet, policy := p);
  }

  lemma SetOnlineTransparent(s: State, now: Time, d: UserId, online: bool)
    ensures SameOutcome(SetOnline(Live(s, now), now, d, online), SetOnline(s, now, d, online), now)
  {
    hide Live, Busy, CanGoOnline, FreshPosition, WithOnline, FindByUserID, ExpirePresence;
    LiveFrame(s, now);
    SettleOfLive(s, now);
    if d in s.fleet.profiles {
      FleetPutTransparent(s, now, ExpirePresence(WithOnline(s.fleet, d, online), now, Some(d), {}));
    }
  }

  lemma SelectOperationTransparent(s: State, now: Time, d: UserId, v: VehicleId)
    ensures SameOutcome(SelectOperation(Live(s, now), now, d, v), SelectOperation(s, now, d, v), now)
  {
    hide Live, Busy, ServesSomething, ExpirePresence;
    LiveFrame(s, now);
    var ours := SelectOperation(s, now, d, v).state;
    FleetPutTransparent(s, now, ours.fleet);
    assert ours == s.(fleet := ours.fleet);
    assert SelectOperation(Live(s, now), now, d, v).state == Live(s, now).(fleet := ours.fleet);
  }

  lemma UpdateLocationTransparent(s: State, now: Time, d: UserId, point: Point)
    ensures SameOutcome(UpdateLocation(Live(s, now), now, d, point), UpdateLocation(s, now, d, point), now)
  {
    hide Live, ExpirePresence;
    LiveFrame(s, now);
    SettleOfLive(s, now);
    FleetPutTransparent(s, now, UpdateLocation(s, now, d, point).state.fleet);
  }

  // ---- New rides and discovery ----

  lemma CreateRideTransparent(s: State, now: Time, r: RideId, rider: UserId, service: ServiceCode,
                              fare: Option<Money>, pickup: Point)
    requires PolicyAllowed(s.policy)
    ensures SameOutcome(CreateRide(Live(s, now), now, r, rider, service, fare, pickup),
                        CreateRide(s, now, r, rider, service, fare, pickup), now)
  {
    hide Live;
    LiveFrame(s, now);
    SettleOfLive(s, now);
    var ours := CreateRide(s, now, r, rider, service, fare, pickup);
    if ours.result.Ok? {
      NewRideSettles(s, now, r, ours.result.value);
      NewRideSettles(Live(s, now), now, r, ours.result.value);
    }
  }

  lemma NewRideSettles(s: State, now: Time, r: RideId, ride: Ride)
    requires r !in s.rides && ride.status.RideRequested? && ride.expiresAt > now
    ensures var y := s.(rides := s.rides[r := ride]);
            Live(y, now) == Live(s, now).(rides := Live(s, now).rides[r := ride])
  {
    hide SettledOffer, SettledOpportunity, OfferLapsed;
    var y := s.(rides := s.rides[r := ride]);
    assert forall q :: RideClosing(y, q, now) == RideClosing(s, q, now);
    assert SettledOffers(y, now) == SettledOffers(s, now);
    assert SettledOpportunities(y, now) == SettledOpportunities(s, now);
    assert ExpireRides(y.rides, y.trips, now) == ExpireRides(s.rides, s.trips, now)[r := ride];
  }

  lemma OpenableErased(x: State, now: Time, d: UserId)
    ensures Openable(Erase(x), now, d) == Openable(x, now, d)
    ensures OpenWindows(Erase(x), now, d) == OpenWindows(x, now, d)
  {
    hide Erase, Equipped, Present, Busy;
    ErasedRows(x);
  }

  lemma OpenedByErased(x: State, now: Time, d: UserId, limit: nat, metric: Metric)
    ensures OpenedBy(Erase(x), now, d, limit, metric) == OpenedBy(x, now, d, limit, metric)
  {
    hide Erase, Openable, OpenWindows, Top;
    ErasedRows(x);
    OpenableErased(x, now, d);
    OpenableAreRides(x, now, d);
  }

  lemma WithOpenedErased(x: State, now: Time, d: UserId, chosen: set<RideId>)
    ensures Erase(WithOpened(Erase(x), now, d, chosen)) == Erase(WithOpened(x, now, d, chosen))
  {
    hide PairsOf;
    var a, b := WithOpened(Erase(x), now, d, chosen), WithOpened(x, now, d, chosen);
    assert ErasedOpportunities(a.opportunities) == ErasedOpportunities(b.opportunities);
    assert ErasedOffers(a.offers) == ErasedOffers(b.offers);
  }

  lemma FeedErased(y: State, now: Time, d: UserId)
    ensures Feed(Erase(y), now, d) == Feed(y, now, d)
    ensures forall r | r in Feed(y, now, d) ::
      r in y.rides && Pair(r, d) in y.opportunities && y.opportunities[Pair(r, d)].status.Open?
  {
    hide Erase, Equipped, Present, Busy;
    ErasedRows(y);
    OpenableErased(y, now, d);
  }

  /** The feed and its items read only live rows. */
  lemma ShownErased(y: State, now: Time, d: UserId, limit: nat, metric: Metric)
    ensures Shown(Erase(y), now, d, limit, metric) == Shown(y, now, d, limit, metric)
    ensures forall r | r in Shown(y, now, d, limit, metric) ::
      && r in y.rides && Pair(r, d) in y.opportunities && Pair(r, d) in Erase(y).opportunities && d in y.fleet.positions
      && (y.rides[r].fare.Some? ==> Item(Erase(y), r, d, metric) == Item(y, r, d, metric))
  {
    hide Erase, Top, Feed;
    ErasedRows(y);
    FeedErased(y, now, d);
  }

  lemma DiscoverTransparent(s: State, now: Time, d: UserId, limit: nat, metric: Metric)
    requires Inv(s, now)
    ensures SameOutcome(Discover(Live(s, now), now, d, limit, metric), Discover(s, now, d, limit, metric), now)
  {
    hide Inv, Settle, Settled, Live, Erase, Openable, OpenedBy, WithOpened, Shown;
    var x := Settle(s, now);
    var e := Erase(x);
    Settling(s, now);
    ErasedRows(x);
    OpenedByErased(x, now, d, limit, metric);
    var chosen := OpenedBy(x, now, d, limit, metric);
    var y := WithOpened(x, now, d, chosen);
    var z := WithOpened(e, now, d, chosen);
    WithOpenedErased(x, now, d, chosen);
    ShownErased(y, now, d, limit, metric);
    ShownErased(z, now, d, limit, metric);
    ErasedRows(y);
    ErasedRows(z);
    SettleKeepsInv(s, now, now);
    PolicyOf(x, now);
    OpenedByIsOpenable(x, now, d, limit, metric);
    OpenedByIsOpenable(e, now, d, limit, metric);
    OpeningStaysSettled(x, now, d, chosen);
    OpeningStaysSettled(e, now, d, chosen);
    SettledAlike(y, z, now);
    DiscoverSucceeds(s, now, d, limit, metric);
    var ours := Discover(s, now, d, limit, metric);
    var theirs := Discover(Live(s, now), now, d, limit, metric);
    assert ours.state == y;
    SameItems(y, z, now, d, limit, metric);
    assert theirs.state == z;
    forall item | item in ours.result.value ensures item in theirs.result.value {
      var r :| r in Shown(y, now, d, limit, metric) && item == Item(y, r, d, metric);
      assert item == Item(z, r, d, metric);
    }
    forall item | item in theirs.result.value ensures item in ours.result.value {
      var r :| r in Shown(z, now, d, limit, metric) && item == Item(z, r, d, metric);
      assert item == Item(y, r, d, metric);
    }
    assert ours.result.value == theirs.result.value;
  }

  lemma SameItems(y: State, z: State, now: Time, d: UserId, limit: nat, metric: Metric)
    requires Erase(y) == Erase(z) && y.rides == z.rides
    requires forall r | r in Shown(y, now, d, limit, metric) :: r in y.rides && y.rides[r].fare.Some?
    ensures Shown(y, now, d, limit, metric) == Shown(z, now, d, limit, metric)
    ensures forall r | r in Shown(y, now, d, limit, metric) ::
      && Pair(r, d) in y.opportunities && Pair(r, d) in z.opportunities && d in y.fleet.positions && d in z.fleet.positions
      && Item(y, r, d, metric) == Item(z, r, d, metric)
  {
    hide Erase, Shown, Item;
    ShownErased(y, now, d, limit, metric);
    ShownErased(z, now, d, limit, metric);
  }
}
