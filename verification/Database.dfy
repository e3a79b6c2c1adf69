/**
 * The tables as mutable fields and each transaction as the statements that update them, one method per
 * repository method. Every method is proved against its function in Transactions.
 */
module Database {
  import opened Base
  import opened MarketState
  import opened Invariants
  import opened Preservation
  import opened Ordering
  import opened Fares
  import opened Runs
  import E = Expiry
  import T = Transactions
  import D = Discovery
  import C = CurrentTrip
  import L = Lifecycle
  import R = ReadPath

  class Store {
    var rides: map<RideId, Ride>
    var opportunities: map<Pair, Opportunity>
    var offers: map<Pair, Offer>
    var trips: map<RideId, Trip>
    var profiles: map<UserId, Profile>
    var selections: map<UserId, VehicleId>
    var vehicles: map<VehicleId, Vehicle>
    var enrollments: set<Enrollment>
    var catalog: map<ServiceCode, Service>
    var capable: set<UserId>
    var positions: map<UserId, Position>
    var policy: TimingPolicy
    var clock: Time

    function View(): State
      reads this
    {
      State(rides, opportunities, offers, trips,
            Fleet(profiles, selections, vehicles, enrollments, catalog, capable, positions), policy)
    }

    ghost predicate Valid()
      reads this
    {
      Inv(View(), clock)
    }

    constructor (policy: TimingPolicy, clock: Time)
      requires T.PolicyAllowed(policy)
      ensures Valid() && this.clock == clock
      ensures View() == State(map[], map[], map[], map[], Fleet(map[], map[], map[], {}, map[], {}, map[]), policy)
    {
      rides, opportunities, offers, trips := map[], map[], map[], map[];
      profiles, selections, vehicles, enrollments := map[], map[], map[], {};
      catalog, capable, positions := map[], {}, map[];
      this.policy, this.clock := policy, clock;
    }

    /** Undo what the transaction wrote to the market tables since BEGIN. */
    method Rollback(saved: State)
      requires saved.fleet == View().fleet && saved.policy == policy
      modifies `rides, `opportunities, `offers, `trips
      ensures View() == saved
    {
      rides, opportunities, offers, trips := saved.rides, saved.opportunities, saved.offers, saved.trips;
    }

    // ---- Deadlines ----

    method ExecExpireStatement(i: nat, now: Time)
      requires i < E.STATEMENTS
      modifies `rides, `opportunities, `offers
      ensures View() == E.ExpireStatement(old(View()), i, now)
    {
      match i
      case 0 => offers := E.ExpirePendingOffers(offers, now);
      case 1 => opportunities := E.ExpireOfferedOpportunities(opportunities, offers, now);
      case 2 => opportunities := E.ExpireOpenWindows(opportunities, now);
      case 3 => rides := E.ExpireRides(rides, trips, now);
      case 4 => offers := E.CloseOffersOfClosedRides(offers, rides, now);
      case 5 => opportunities := E.CloseOpportunitiesOfClosedRides(opportunities, rides, now);
    }

    /** The loop over the six statements applies every deadline, exactly. */
    method Expire(now: Time)
      modifies `rides, `opportunities, `offers
      ensures View() == E.Settle(old(View()), now)
      ensures E.Settled(View(), now)
    {
      for i := 0 to E.STATEMENTS
        invariant View() == E.ExpirePrefix(old(View()), i, now)
      {
        ExecExpireStatement(i, now);
      }
      E.SixStatementsSettle(old(View()), now);
      E.SettleIsComplete(old(View()), now);
    }

    // ---- Offers ----

    method Market(now: Time, r: RideId) returns (quote: Result<T.Quote>)
      ensures quote == T.Market(View(), now, r)
    {
      if r !in rides || rides[r].expiresAt <= now || r in trips { return Err(RideNotFound); }
      if !rides[r].status.RideRequested? || rides[r].fare.None? { return Err(RideNotOpen); }
      var fare := rides[r].fare.value;
      return Ok(T.Quote(r, fare.amount, fare.currency));
    }

    /** Lock the joined rows first, then decide in a new statement. */
    method LockMarketplaceEligible(now: Time, d: UserId, service: ServiceCode) returns (eligible: bool)
      ensures eligible == Eligible(View(), d, service, now)
    {
      var f := View().fleet;
      if !(Equipped(f, d, service) && d in capable && d in positions) { return false; }
      eligible := Present(f, d, now) && !Busy(trips, d);
    }

    /** The checks of an offer in order, each against the latest rows; on success the row to insert. */
    method CheckOffer(now: Time, k: Pair, amount: int, minimum: int, maximum: int, currency: string)
      returns (offer: Result<Offer>)
      ensures offer == T.OfferDecision(View(), now, k, amount, minimum, maximum, currency)
    {
      hide Eligible;
      if k.ride !in rides { return Err(RideNotFound); }
      var ride := rides[k.ride];
      if !ride.status.RideRequested? || ride.expiresAt <= now || ride.fare.None? || ride.fare.value.currency != currency {
        return Err(RideNotOpen);
      }
      if k.ride in trips { return Err(RideNotOpen); }
      if k.driver == ride.rider { return Err(DriverIneligible); }
      if amount < minimum || amount > maximum { return Err(AmountOutOfRange); }
      if k !in opportunities || !opportunities[k].status.Open? || opportunities[k].visibleUntil <= now {
        return Err(OpportunityNotOpen);
      }
      var eligible := LockMarketplaceEligible(now, k.driver, ride.service);
      if !eligible { return Err(DriverIneligible); }
      if !T.OfferRowAllowed(amount, currency) { return Err(ConstraintViolation); }
      if k in offers { return Err(OpportunityNotOpen); }
      assert Equipped(View().fleet, k.driver, ride.service) by { EligibleIsEquipped(View(), k.driver, ride.service, now); }
      var context := T.ContextOf(View().fleet, k.driver, ride.service, Money(amount, currency));
      return Ok(Offer(amount, currency, Pending, now, now, now + policy.offerTtl * SECOND, None, context));
    }

    method Upsert(now: Time, k: Pair, amount: int, minimum: int, maximum: int, currency: string)
      returns (offer: Result<Offer>)
      requires Valid() && clock <= now && BoundsOfRide(View(), k.ride, minimum, maximum)
      modifies this
      ensures Valid() && clock == now
      ensures Tx(View(), offer) == T.Upsert(old(View()), now, k, amount, minimum, maximum, currency)
    {
      hide Inv, E.Settle, E.Settled, T.OfferDecision, BoundsOfRide;
      InvLater(View(), clock, now);
      UpsertKeepsInv(View(), now, k, amount, minimum, maximum, currency);
      var saved := View();
      clock := now;
      Expire(now);
      offer := CheckOffer(now, k, amount, minimum, maximum, currency);
      if offer.Err? { Rollback(saved); return; }
      offers := offers[k := offer.value];
      opportunities := opportunities[k := opportunities[k].(status := Offered, respondedAt := Some(now))];
    }

    /** The quote may have been read in an earlier transaction. */
    method Submit(now: Time, q: T.Quote, d: UserId, amount: int) returns (offer: Result<Offer>)
      requires Valid() && clock <= now && Quoted(View(), q)
      modifies this
      ensures Valid() && clock == now
      ensures Tx(View(), offer) == T.Submit(old(View()), now, q, d, amount)
    {
      hide Inv, T.Upsert, BoundsOfRide;
      QuoteGivesBounds(View(), q);
      if amount < Minimum(q.amount) || amount > Maximum(q.amount) {
        InvLater(View(), clock, now);
        clock := now;
        return Err(AmountOutOfRange);
      }
      offer := Upsert(now, Pair(q.ride, d), amount, Minimum(q.amount), Maximum(q.amount), q.currency);
    }

    method AcceptProposed(now: Time, q: T.Quote, d: UserId) returns (offer: Result<Offer>)
      requires Valid() && clock <= now && Quoted(View(), q)
      modifies this
      ensures Valid() && clock == now
      ensures Tx(View(), offer) == T.AcceptProposed(old(View()), now, q, d)
    {
      hide Inv, T.Upsert, BoundsOfRide;
      QuoteGivesBounds(View(), q);
      offer := Upsert(now, Pair(q.ride, d), q.amount, Minimum(q.amount), Maximum(q.amount), q.currency);
    }

    /** Reads the stored row as it is, overdue or not. */
    method GetOffer(k: Pair) returns (offer: Result<Offer>)
      ensures offer == T.GetOffer(View(), k)
    {
      if k !in offers { return Err(OfferNotFound); }
      return Ok(offers[k]);
    }

    method Skip(now: Time, k: Pair) returns (outcome: Result<()>)
      requires Valid() && clock <= now
      modifies this
      ensures Valid() && clock == now
      ensures Tx(View(), outcome) == T.Skip(old(View()), now, k)
    {
      hide Inv, E.Settle, E.Settled;
      InvLater(View(), clock, now);
      SkipKeepsInv(View(), now, k);
      var saved := View();
      clock := now;
      Expire(now);
      if !T.CanSkip(View(), now, k) { Rollback(saved); return Err(OpportunityNotOpen); }
      opportunities := opportunities[k := opportunities[k].(status := DriverSkipped, respondedAt := Some(now))];
      return Ok(());
    }

    method Reject(now: Time, k: Pair, rider: UserId) returns (offer: Result<Offer>)
      requires Valid() && clock <= now
      modifies this
      ensures Valid() && clock == now
      ensures Tx(View(), offer) == T.Reject(old(View()), now, k, rider)
    {
      hide Inv, E.Settle, E.Settled, RideLive, E.DecideOffer, T.RejectOpportunity;
      InvLater(View(), clock, now);
      RejectKeepsInv(View(), now, k, rider);
      var saved := View();
      clock := now;
      Expire(now);
      if k.ride !in rides || rides[k.ride].rider != rider { Rollback(saved); return Err(RideNotFound); }
      if !RideLive(View(), k.ride, now) { Rollback(saved); return Err(RideNotOpen); }
      if k !in offers { Rollback(saved); return Err(OfferNotFound); }
      match offers[k].status
      case Pending =>
        offers := offers[k := E.DecideOffer(offers[k], Rejected, now)];
        opportunities := T.RejectOpportunity(opportunities, k);
        return Ok(offers[k]);
      case Rejected => return Ok(offers[k]);
      case _ =>
        Rollback(saved);
        return Err(OfferNotActionable);
    }

    // ---- Assignment ----

    method CheckSelection(now: Time, k: Pair, rider: UserId, version: Time) returns (refusal: Option<Error>)
      requires Valid() && clock == now
      ensures refusal == T.SelectRefusal(View(), now, k, rider, version)
    {
      hide Inv, Eligible, OperationMatches;
      if k.ride !in rides { return Some(MarketNotOpen); }
      var ride := rides[k.ride];
      if ride.rider != rider { return Some(OfferNotActionable); }
      if !ride.status.RideRequested? || ride.expiresAt <= now || ride.fare.None? { return Some(MarketNotOpen); }
      if k.ride in trips { return Some(MarketNotOpen); }
      if k !in offers || !offers[k].status.Pending? || offers[k].expiresAt <= now || offers[k].updatedAt != version {
        return Some(OfferNotActionable);
      }
      if k !in opportunities || !opportunities[k].status.Offered? { return Some(OfferNotActionable); }
      var eligible := LockMarketplaceEligible(now, k.driver, ride.service);
      if !eligible { return Some(DriverUnavailable); }
      if !OperationMatches(View(), k) { return Some(DriverUnavailable); }
      R.NoOwnRideOffers(View(), now, k);
      return None;
    }

    /** The insert that the index over active trips guards. */
    method InsertTrip(now: Time, r: RideId, rider: UserId, d: UserId) returns (trip: Result<Trip>)
      requires Pair(r, d) in offers
      modifies `trips
      ensures r !in old(trips) && !Busy(old(trips), d) ==>
        && trip == Ok(T.NewTrip(rider, d, now, offers[Pair(r, d)].context)) && trips == old(trips)[r := trip.value]
      ensures r in old(trips) || Busy(old(trips), d) ==> trip.Err? && trips == old(trips)
    {
      if r in trips { return Err(ConstraintViolation); }
      if Busy(trips, d) { return Err(DriverUnavailable); }
      trip := Ok(T.NewTrip(rider, d, now, offers[Pair(r, d)].context));
      trips := trips[r := trip.value];
    }

    method MarkRideAccepted(now: Time, r: RideId) returns (updated: nat)
      modifies `rides
      ensures if r in old(rides) && old(rides)[r].status.RideRequested? && old(rides)[r].expiresAt > now
              then updated == 1 && rides == old(rides)[r := old(rides)[r].(status := RideAccepted)]
              else updated == 0 && rides == old(rides)
    {
      if r !in rides || !rides[r].status.RideRequested? || rides[r].expiresAt <= now { return 0; }
      rides := rides[r := rides[r].(status := RideAccepted)];
      return 1;
    }

    /** The writes of an assignment in order; neither unique key nor the status re-check has anything to refuse. */
    method Assign(now: Time, k: Pair, rider: UserId) returns (trip: Trip)
      requires Selecting(View(), now, k) && rides[k.ride].rider == rider
      modifies `rides, `trips, `offers, `opportunities
      ensures View() == Selected(old(View()), now, k)
      ensures trip == T.NewTrip(rider, k.driver, now, old(offers)[k].context)
    {
      hide E.DecideOffer, T.AcceptOpportunity, T.CloseRideOffers, T.CloseRideOpportunities, T.NewTrip, Busy;
      offers := offers[k := E.DecideOffer(offers[k], OfferAccepted, now)];
      opportunities := T.AcceptOpportunity(opportunities, k);
      assert offers[k].context == old(offers)[k].context by { DecidingKeepsContext(old(offers)[k], now); }
      var inserted := InsertTrip(now, k.ride, rider, k.driver);
      trip := inserted.value;
      var updated := MarkRideAccepted(now, k.ride);
      assert updated == 1;
      offers := T.CloseRideOffers(offers, k.ride, Some(k.driver), now);
      opportunities := T.CloseRideOpportunities(opportunities, k.ride, Some(k.driver), now);
    }

    method SelectOffer(now: Time, k: Pair, rider: UserId, version: Time) returns (trip: Result<Trip>)
      requires Valid() && clock <= now
      modifies this
      ensures Valid() && clock == now
      ensures Tx(View(), trip) == T.SelectOffer(old(View()), now, k, rider, version)
    {
      hide Inv, E.Settle, E.Settled, T.SelectRefusal, T.CloseRideOffers, T.CloseRideOpportunities, Selecting, Selected;
      InvLater(View(), clock, now);
      SelectOfferKeepsInv(View(), now, k, rider, version);
      SettleKeepsInv(View(), now, now);
      var saved := View();
      clock := now;
      Expire(now);
      var refusal := CheckSelection(now, k, rider, version);
      if refusal.Some? { Rollback(saved); return Err(refusal.value); }
      SelectOfferWrites(saved, now, k, rider, version);
      var row := Assign(now, k, rider);
      return Ok(row);
    }

    // ---- Cancellation ----

    method LockRide(r: RideId, rider: Option<UserId>) returns (ride: Option<Ride>)
      ensures ride == if r in rides && (rider.None? || rides[r].rider == rider.value) then Some(rides[r]) else None
    {
      if r !in rides || (rider.Some? && rides[r].rider != rider.value) { return None; }
      return Some(rides[r]);
    }

    method LockTrip(r: RideId, d: Option<UserId>) returns (trip: Option<Trip>)
      ensures trip == if r in trips && (d.None? || trips[r].driver == d.value) then Some(trips[r]) else None
    {
      if r !in trips || (d.Some? && trips[r].driver != d.value) { return None; }
      return Some(trips[r]);
    }

    /** Writes the ride first; when the trip then refuses, the caller rolls back. */
    method CancelLocked(now: Time, r: RideId, actor: Actor, trip: Option<Trip>) returns (result: Result<T.CancelResult>)
      requires r in rides
      modifies `rides, `trips, `offers, `opportunities
      ensures var spec := T.CancelLocked(old(View()), old(View()), now, r, actor, trip);
              result == spec.result && (result.Ok? ==> View() == spec.state)
    {
      hide T.CloseRideOffers, T.CloseRideOpportunities;
      rides := rides[r := rides[r].(status := RideCancelled, cancellation := Some(Cancellation(actor, now)))];
      var after: Option<Trip> := None;
      if trip.Some? {
        match trip.value.status
        case Completed => return Err(TripCompletedError);
        case TripCancelled => return Err(InconsistentRow);
        case _ =>
          after := Some(T.CancelTrip(trip.value, now));
          trips := trips[r := after.value];
      }
      offers := T.CloseRideOffers(offers, r, None, now);
      opportunities := T.CloseRideOpportunities(opportunities, r, None, now);
      return Ok(T.CancelResult(r, actor, now, after));
    }

    /** What both cancellations do once ride and trip are locked. */
    method Cancel(saved: State, now: Time, r: RideId, actor: Actor, trip: Option<Trip>)
      returns (result: Result<T.CancelResult>)
      requires r in rides && saved.fleet == View().fleet && saved.policy == policy
      modifies `rides, `trips, `offers, `opportunities
      ensures Tx(View(), result) == T.Cancel(saved, old(View()), now, r, actor, trip)
    {
      hide T.CancelLocked, T.ExistingResult;
      CancelLockedFrom(saved, View(), now, r, actor, trip);
      if rides[r].status.RideCancelled? {
        result := T.ExistingResult(View(), r, trip);
        if result.Err? { Rollback(saved); }
        return;
      }
      if rides[r].status.RideExpired? { Rollback(saved); return Err(RideExpiredError); }
      if trip.Some? && trip.value.status.Completed? { Rollback(saved); return Err(TripCompletedError); }
      result := CancelLocked(now, r, actor, trip);
      if result.Err? { Rollback(saved); }
    }

    method CancelByRider(now: Time, r: RideId, rider: UserId) returns (result: Result<T.CancelResult>)
      requires Valid() && clock <= now
      modifies this
      ensures Valid() && clock == now
      ensures Tx(View(), result) == T.CancelByRider(old(View()), now, r, rider)
    {
      hide Inv, E.Settled, T.Cancel, E.SettledOffers, E.SettledOpportunities, E.ExpireRides;
      InvLater(View(), clock, now);
      CancelsKeepInv(View(), now, r, rider);
      var saved := View();
      clock := now;
      Expire(now);
      var ride := LockRide(r, Some(rider));
      if ride.None? { Rollback(saved); return Err(CancellationNotFound); }
      var trip := LockTrip(r, None);
      result := Cancel(saved, now, r, RiderActor, trip);
    }

    method CancelByDriver(now: Time, r: RideId, d: UserId) returns (result: Result<T.CancelResult>)
      requires Valid() && clock <= now
      modifies this
      ensures Valid() && clock == now
      ensures Tx(View(), result) == T.CancelByDriver(old(View()), now, r, d)
    {
      hide Inv, E.Settled, T.Cancel, E.SettledOffers, E.SettledOpportunities, E.ExpireRides;
      InvLater(View(), clock, now);
      CancelsKeepInv(View(), now, r, d);
      var saved := View();
      clock := now;
      Expire(now);
      var ride := LockRide(r, None);
      if ride.None? { Rollback(saved); return Err(CancellationNotFound); }
      var trip := LockTrip(r, Some(d));
      if trip.None? { Rollback(saved); return Err(CancellationNotFound); }
      result := Cancel(saved, now, r, DriverActor, trip);
    }

    // ---- Trip execution ----

    method Start(now: Time, r: RideId, d: UserId) returns (trip: Result<Trip>)
      requires Valid() && clock <= now
      modifies `trips, `clock
      ensures Valid() && clock == now
      ensures Tx(View(), trip) == T.Start(old(View()), now, r, d)
    {
      hide Inv;
      InvLater(View(), clock, now);
      ExecutionKeepsInv(View(), now, r, d);
      clock := now;
      var locked := LockTrip(r, Some(d));
      if locked.None? { return Err(TripNotFound); }
      match locked.value.status {
        case Assigned => trips := trips[r := trips[r].(status := InProgress, startedAt := Some(now))];
        case InProgress =>
        case Completed => return Err(TripCompletedError);
        case TripCancelled => return Err(TripCancelledError);
      }
      return Ok(trips[r]);
    }

    method Complete(now: Time, r: RideId, d: UserId) returns (trip: Result<Trip>)
      requires Valid() && clock <= now
      modifies `trips, `clock
      ensures Valid() && clock == now
      ensures Tx(View(), trip) == T.Complete(old(View()), now, r, d)
    {
      hide Inv;
      InvLater(View(), clock, now);
      ExecutionKeepsInv(View(), now, r, d);
      clock := now;
      var locked := LockTrip(r, Some(d));
      if locked.None? { return Err(TripNotFound); }
      match locked.value.status {
        case Assigned => return Err(TripNotStarted);
        case InProgress => trips := trips[r := trips[r].(status := Completed, completedAt := Some(now))];
        case Completed =>
        case TripCancelled => return Err(TripCancelledError);
      }
      if trips[r].completedAt.None? { return Err(InconsistentRow); }
      return Ok(trips[r]);
    }

    method ConfirmCashCollected(now: Time, r: RideId, d: UserId) returns (trip: Result<Trip>)
      requires Valid() && clock <= now
      modifies `trips, `clock
      ensures Valid() && clock == now
      ensures Tx(View(), trip) == T.ConfirmCashCollected(old(View()), now, r, d)
    {
      hide Inv;
      InvLater(View(), clock, now);
      ExecutionKeepsInv(View(), now, r, d);
      clock := now;
      var locked := LockTrip(r, Some(d));
      if locked.None? { return Err(TripNotFound); }
      match locked.value.status {
        case TripCancelled => return Err(TripCancelledError);
        case Completed =>
          if !trips[r].settlement.collected {
            trips := trips[r := trips[r].(settlement := Settlement(true, Some("cash"), Some(now), Some(trips[r].driver)))];
          }
        case _ => return Err(TripNotCompleted);
      }
      var settlement := trips[r].settlement;
      if settlement.means.None? || settlement.at.None? { return Err(InconsistentRow); }
      return Ok(trips[r]);
    }

    // ---- Driver presence and selection ----

    /** Lock the online profiles in scope, then take each one offline unless its position is fresh. */
    method ExpirePresenceRows(now: Time, only: Option<UserId>, skipped: set<UserId>)
      modifies `profiles
      ensures View().fleet == T.ExpirePresence(old(View()).fleet, now, only, skipped)
    {
      hide FreshPosition, T.ExpirePresence;
      var f := View().fleet;
      var ids := set d | d in profiles && profiles[d].online && (only.None? || only.value == d) && d !in skipped;
      var todo := ids;
      while todo != {}
        invariant todo <= ids && TakenOffline(f, now, ids - todo, profiles)
        decreases |todo|
      {
        hide TakenOffline;
        var d :| d in todo;
        ExpireNext(f, now, ids, todo, profiles, d);
        if profiles[d].online && !FreshPosition(f, d, now) {
          profiles := profiles[d := profiles[d].(online := false)];
        }
        todo := todo - {d};
      }
      AllExpired(f, now, only, skipped, ids, profiles);
    }

    method ExpirePresence(now: Time, skipped: set<UserId>)
      requires Valid() && clock <= now
      modifies `profiles, `clock
      ensures Valid() && clock == now
      ensures View() == old(View()).(fleet := T.ExpirePresence(old(View()).fleet, now, None, skipped))
    {
      hide Inv, T.ExpirePresence;
      InvLater(View(), clock, now);
      PresenceKeepsInv(View(), now, None, skipped);
      clock := now;
      ExpirePresenceRows(now, None, skipped);
    }

    /** Expire the driver's presence, then scan the first row of the ordered join. */
    method FindByUserID(now: Time, d: UserId) returns (profile: Result<T.ProfileView>)
      modifies `profiles
      ensures View().fleet == T.ExpirePresence(old(View()).fleet, now, Some(d), {})
      ensures profile == T.FindByUserID(View().fleet, d)
    {
      hide T.ExpirePresence;
      ExpirePresenceRows(now, Some(d), {});
      var owned: set<VehicleId> := set v | v in vehicles && vehicles[v].owner == d;
      if d !in profiles || owned == {} {
        assert forall v | v in vehicles && vehicles[v].owner == d :: v in owned;
        return Err(ProfileNotFound);
      }
      var rows := vehicles;
      var order := (v: VehicleId, w: VehicleId) => v in rows && w in rows && T.RegisteredBefore(rows, v, w);
      var ordered := OrderBy(owned, order);
      assert ordered[0] in RowsOf(ordered);
      OnlyFirstVehicle(View().fleet, d, ordered, order);
      return Ok(T.ProfileView(profiles[d], ordered[0], vehicles[ordered[0]].details));
    }

    method SetOnline(now: Time, d: UserId, online: bool) returns (profile: Result<T.ProfileView>)
      requires Valid() && clock <= now
      modifies `profiles, `clock
      ensures Valid() && clock == now
      ensures Tx(View(), profile) == T.SetOnline(old(View()), now, d, online)
    {
      hide Inv, Busy, T.CanGoOnline, FreshPosition, T.ExpirePresence, T.FindByUserID;
      InvLater(View(), clock, now);
      SetOnlineKeepsInv(View(), now, d, online);
      clock := now;
      if d !in profiles { return Err(ProfileNotFound); }
      if online {
        if !T.CanGoOnline(View().fleet, d) { return Err(SelectionInvalid); }
        if !FreshPosition(View().fleet, d, now) { return Err(LocationRequired); }
        if Busy(trips, d) { return Err(TripActive); }
      }
      profiles := profiles[d := profiles[d].(online := online, status := if online then Active else profiles[d].status)];
      PresenceKeepsProfiles(View().fleet, now, d);
      profile := FindByUserID(now, d);
    }

    method SelectOperation(now: Time, d: UserId, v: VehicleId) returns (state: Result<T.OperatingState>)
      requires Valid() && clock <= now
      modifies `profiles, `selections, `clock
      ensures Valid() && clock == now
      ensures Tx(View(), state) == T.SelectOperation(old(View()), now, d, v)
    {
      hide Inv, Busy, T.ServesSomething, T.ExpirePresence, T.ReadOperatingState;
      InvLater(View(), clock, now);
      SelectOperationKeepsInv(View(), now, d, v);
      clock := now;
      ExpirePresenceRows(now, Some(d), {});
      if d !in profiles { return Err(ProfileNotFound); }
      if profiles[d].online || Busy(trips, d) { return Err(SelectionLocked); }
      if v !in vehicles || vehicles[v].owner != d || !T.ServesSomething(View().fleet, v) || d !in capable {
        return Err(SelectionInvalid);
      }
      selections := selections[d := v];
      return T.ReadOperatingState(View(), d);
    }

    /** A late heartbeat stores the position but first drops a lapsed presence. */
    method UpsertCurrentLocation(now: Time, d: UserId, point: Point) returns (position: Result<Position>)
      requires Valid() && clock <= now
      modifies `profiles, `positions, `clock
      ensures Valid() && clock == now
      ensures Tx(View(), position) == T.UpdateLocation(old(View()), now, d, point)
    {
      hide Inv, T.ExpirePresence;
      InvLater(View(), clock, now);
      UpdateLocationKeepsInv(View(), now, d, point);
      clock := now;
      if d !in profiles { return Err(ProfileNotFound); }
      ExpirePresenceRows(now, Some(d), {});
      positions := positions[d := Position(point, now)];
      return Ok(positions[d]);
    }

    // ---- Ride creation, discovery and the rider's view ----

    method CreateRide(now: Time, r: RideId, rider: UserId, service: ServiceCode, fare: Option<Money>, pickup: Point)
      returns (ride: Result<Ride>)
      requires Valid() && clock <= now
      modifies `rides, `clock
      ensures Valid() && clock == now
      ensures Tx(View(), ride) == T.CreateRide(old(View()), now, r, rider, service, fare, pickup)
    {
      hide Inv, T.FareAllowed;
      InvLater(View(), clock, now);
      CreateRideKeepsInv(View(), now, r, rider, service, fare, pickup);
      clock := now;
      if service !in catalog || !catalog[service].active || !catalog[service].riderVisible { return Err(InvalidService); }
      if r in rides || !T.FareAllowed(fare) { return Err(ConstraintViolation); }
      var row := Ride(rider, service, fare, pickup, now, now + policy.rideTtl * SECOND, RideRequested, None);
      rides := rides[r := row];
      return Ok(row);
    }

    /** Opens the best-ranked windows, then scans the feed in rank order. */
    method Discover(now: Time, d: UserId, limit: nat, metric: Metric) returns (items: seq<T.DiscoveryItem>)
      requires Valid() && clock <= now
      modifies `rides, `offers, `opportunities, `clock
      ensures Valid() && clock == now
      ensures Tx(View(), Ok(RowsOf(items))) == T.Discover(old(View()), now, d, limit, metric)
      ensures Ordered(items, FeedOrder)
      ensures forall i, j | 0 <= i < j < |items| ::
        && items[i].distance <= items[j].distance
        && (items[i].distance == items[j].distance ==> items[i].createdAt <= items[j].createdAt)
    {
      hide Inv, E.Settle, E.Settled, T.OpenedBy, T.WithOpened, T.Shown, FeedOrder;
      InvLater(View(), clock, now);
      DiscoverKeepsInv(View(), now, d, limit, metric);
      D.DiscoverSucceeds(View(), now, d, limit, metric);
      clock := now;
      Expire(now);
      var x := View();
      opportunities := T.WithOpened(x, now, d, T.OpenedBy(x, now, d, limit, metric)).opportunities;
      WithOpenedFrame(x, now, d, T.OpenedBy(x, now, d, limit, metric));
      D.ShownRowFacts(View(), now, d, limit, metric);
      var y := View();
      var rows := set r | r in T.Shown(y, now, d, limit, metric) :: T.Item(y, r, d, metric);
      FeedOrderIsStrict(y, now, d, T.Shown(y, now, d, limit, metric), metric);
      items := OrderBy(rows, FeedOrder);
      NearestFirst(items);
    }

    method ListForRider(now: Time, r: RideId, rider: UserId, metric: Metric) returns (list: Result<seq<T.RiderOffer>>)
      ensures (if list.Ok? then Ok(RowsOf(list.value)) else Err(list.error))
           == T.ListForRider(View(), now, r, rider, metric)
      ensures list.Ok? ==> Ordered(list.value, ComparisonOrder)
      ensures list.Ok? ==> forall i, j | 0 <= i < j < |list.value| ::
        var a, b := list.value[i], list.value[j];
        && (b.selectable ==> a.selectable)
        && (a.selectable == b.selectable ==>
              && a.offer.amount <= b.offer.amount
              && (a.offer.amount == b.offer.amount && b.distance.Some? ==>
                    a.distance.Some? && a.distance.value <= b.distance.value)
              && (a.offer.amount == b.offer.amount && a.distance == b.distance ==>
                    a.offer.createdAt <= b.offer.createdAt))
    {
      hide T.RiderItem, T.Listed, ComparisonOrder;
      if r !in rides || rides[r].rider != rider || r in trips { return Err(RideNotFound); }
      if !RideLive(View(), r, now) { return Err(RideNotOpen); }
      var s := View();
      var rows := set k | k in offers && k.ride == r && T.Listed(s, now, k) :: T.RiderItem(s, now, k, metric);
      ComparisonOrderIsStrict(s, now, r, rows, metric);
      var items := OrderBy(rows, ComparisonOrder);
      SelectableFirst(items);
      return Ok(items);
    }

    /** The driver's current trip, the first row of the ordered query. */
    method GetCurrentTrip(d: UserId) returns (current: Option<RideId>)
      ensures current.Some? ==> C.IsCurrent(View(), d, current.value)
      ensures current.None? ==> !exists r :: C.IsCurrent(View(), d, r)
    {
      var s := View();
      var rows := C.UnfinishedTrips(s, d);
      C.CurrentExists(s, d);
      if rows == {} { return None; }
      var order := (a: RideId, b: RideId) => a in s.trips && b in s.trips && C.Later(s, a, b);
      var ordered := OrderBy(rows, order);
      assert ordered[0] in RowsOf(ordered);
      forall q | C.Unfinished(s, d, q) && q != ordered[0] ensures C.Later(s, ordered[0], q) {
        assert q in RowsOf(ordered);
        assert exists j :: 0 < j < |ordered| && ordered[j] == q;
      }
      return Some(ordered[0]);
    }
  }

  // ---- Facts about rows that the methods use ----

  lemma EligibleIsEquipped(s: State, d: UserId, service: ServiceCode, now: Time)
    requires Eligible(s, d, service, now)
    ensures Equipped(s.fleet, d, service)
  {
  }

  /** The first row scanned is the driver's first vehicle. */
  lemma OnlyFirstVehicle(f: Fleet, d: UserId, ordered: seq<VehicleId>, order: (VehicleId, VehicleId) -> bool)
    requires ordered != [] && Ordered(ordered, order)
    requires RowsOf(ordered) == set v | v in f.vehicles && f.vehicles[v].owner == d
    requires forall v, w | v in f.vehicles && w in f.vehicles :: order(v, w) ==> T.RegisteredBefore(f.vehicles, v, w)
    ensures ordered[0] in f.vehicles && OwnsVehicle(f, d) && ordered[0] == T.FirstVehicleOf(f, d)
  {
    assert ordered[0] in RowsOf(ordered);
    var first := T.FirstVehicleOf(f, d);
    assert first in RowsOf(ordered);
    var j :| 0 <= j < |ordered| && ordered[j] == first;
    assert j > 0 ==> order(ordered[0], first);
  }

  /** The profiles when the presence loop has handled some of them. */
  ghost predicate TakenOffline(f: Fleet, now: Time, handled: set<UserId>, profiles: map<UserId, Profile>) {
    && profiles.Keys == f.profiles.Keys
    && forall d | d in profiles ::
         profiles[d] == if d in handled && !FreshPosition(f, d, now)
                        then f.profiles[d].(online := false) else f.profiles[d]
  }

  /** One iteration handles one more profile. */
  lemma ExpireNext(f: Fleet, now: Time, ids: set<UserId>, todo: set<UserId>, profiles: map<UserId, Profile>, d: UserId)
    requires todo <= ids <= f.profiles.Keys && d in todo && f.profiles[d].online
    requires TakenOffline(f, now, ids - todo, profiles)
    ensures d in profiles && profiles[d].online
    ensures TakenOffline(f, now, ids - (todo - {d}),
                    if FreshPosition(f, d, now) then profiles else profiles[d := profiles[d].(online := false)])
  {
    hide FreshPosition;
    assert ids - (todo - {d}) == ids - todo + {d};
  }

  /** The rows that the presence loop leaves behind. */
  lemma AllExpired(f: Fleet, now: Time, only: Option<UserId>, skipped: set<UserId>, ids: set<UserId>,
                   profiles: map<UserId, Profile>)
    requires TakenOffline(f, now, ids, profiles)
    requires ids == set d | d in f.profiles && f.profiles[d].online && (only.None? || only.value == d) && d !in skipped
    ensures f.(profiles := profiles) == T.ExpirePresence(f, now, only, skipped)
  {
    hide FreshPosition;
    assert profiles == T.ExpirePresence(f, now, only, skipped).profiles;
  }

  lemma DecidingKeepsContext(o: Offer, now: Time)
    ensures E.DecideOffer(o, OfferAccepted, now).context == o.context
  {
  }

  /** What a refused cancellation restores does not affect its reply. */
  lemma CancelLockedFrom(s: State, x: State, now: Time, r: RideId, actor: Actor, trip: Option<Trip>)
    requires r in x.rides
    ensures var spec := T.CancelLocked(x, x, now, r, actor, trip);
            T.CancelLocked(s, x, now, r, actor, trip) == Tx(if spec.result.Ok? then spec.state else s, spec.result)
  {
    hide T.CloseRideOffers, T.CloseRideOpportunities;
  }

  lemma PresenceKeepsProfiles(f: Fleet, now: Time, d: UserId)
    ensures T.ExpirePresence(f, now, Some(d), {}).profiles.Keys == f.profiles.Keys
    ensures T.ExpirePresence(f, now, Some(d), {}).vehicles == f.vehicles
  {
  }

  lemma WithOpenedFrame(x: State, now: Time, d: UserId, chosen: set<RideId>)
    ensures T.WithOpened(x, now, d, chosen) == x.(opportunities := T.WithOpened(x, now, d, chosen).opportunities)
  {
  }

  predicate FeedOrder(a: T.DiscoveryItem, b: T.DiscoveryItem) {
    || a.distance < b.distance
    || (a.distance == b.distance && a.createdAt < b.createdAt)
    || (a.distance == b.distance && a.createdAt == b.createdAt && a.ride < b.ride)
  }

  lemma NearestFirst(items: seq<T.DiscoveryItem>)
    requires Ordered(items, FeedOrder)
    ensures forall i, j | 0 <= i < j < |items| ::
      && items[i].distance <= items[j].distance
      && (items[i].distance == items[j].distance ==> items[i].createdAt <= items[j].createdAt)
  {
  }

  lemma FeedOrderIsStrict(y: State, now: Time, d: UserId, shown: set<RideId>, metric: Metric)
    requires forall r | r in shown ::
      r in y.rides && y.rides[r].fare.Some? && Pair(r, d) in y.opportunities && d in y.fleet.positions
    ensures StrictOrderOn(set r | r in shown :: T.Item(y, r, d, metric), FeedOrder)
  {
  }

  /** Selectable first, then cheapest, then nearest with unknown distances last, then oldest, then by driver. */
  predicate ComparisonOrder(a: T.RiderOffer, b: T.RiderOffer) {
    if a.selectable != b.selectable then a.selectable
    else if a.offer.amount != b.offer.amount then a.offer.amount < b.offer.amount
    else if a.distance != b.distance then a.distance.Some? && (b.distance.None? || a.distance.value < b.distance.value)
    else if a.offer.createdAt != b.offer.createdAt then a.offer.createdAt < b.offer.createdAt
    else a.driver < b.driver
  }

  lemma SelectableFirst(list: seq<T.RiderOffer>)
    requires Ordered(list, ComparisonOrder)
    ensures forall i, j | 0 <= i < j < |list| ::
      var a, b := list[i], list[j];
      && (b.selectable ==> a.selectable)
      && (a.selectable == b.selectable ==>
            && a.offer.amount <= b.offer.amount
            && (a.offer.amount == b.offer.amount && b.distance.Some? ==>
                  a.distance.Some? && a.distance.value <= b.distance.value)
            && (a.offer.amount == b.offer.amount && a.distance == b.distance ==> a.offer.createdAt <= b.offer.createdAt))
  {
  }

  lemma ComparisonOrderIsStrict(s: State, now: Time, r: RideId, rows: set<T.RiderOffer>, metric: Metric)
    requires RideLive(s, r, now)
    requires rows == set k | k in s.offers && k.ride == r && T.Listed(s, now, k) :: T.RiderItem(s, now, k, metric)
    ensures StrictOrderOn(rows, ComparisonOrder)
  {
    hide T.Listed, T.Selectable;
    forall a, b | a in rows && b in rows && a.driver == b.driver ensures a == b {
    }
  }
}
