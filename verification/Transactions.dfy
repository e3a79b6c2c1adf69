/** Each transaction of the marketplace as a function from the old state to the committed one. */
module Transactions {
  import opened Base
  import opened MarketState
  import opened Expiry
  import opened Fares

  // ---- Ride creation and the market read ----

  predicate FareAllowed(fare: Option<Money>) {
    fare.Some? ==>
      && 0 < fare.value.amount <= MAX_FARE_MINOR
      && CurrencyCode(fare.value.currency)
  }

  predicate CurrencyCode(code: string) {
    |code| == 3 && forall i | 0 <= i < 3 :: 'A' <= code[i] <= 'Z'
  }

  function CreateRide(s: State, now: Time, r: RideId, rider: UserId, service: ServiceCode,
                      fare: Option<Money>, pickup: Point): Tx<Ride>
  {
    if !(service in s.fleet.catalog && s.fleet.catalog[service].active && s.fleet.catalog[service].riderVisible) then
      Tx(s, Err(InvalidService))
    else if r in s.rides || !FareAllowed(fare) then
      Tx(s, Err(ConstraintViolation))
    else
      var ride := Ride(rider, service, fare, pickup, now, now + s.policy.rideTtl * SECOND, RideRequested, None);
      Tx(s.(rides := s.rides[r := ride]), Ok(ride))
  }

  /** What a driver is quoted before offering; read without a lock. */
  datatype Quote = Quote(ride: RideId, amount: int, currency: string)

  function Market(s: State, now: Time, r: RideId): Result<Quote> {
    if !(r in s.rides && s.rides[r].expiresAt > now && r !in s.trips) then Err(RideNotFound)
    else if !s.rides[r].status.RideRequested? || s.rides[r].fare.None? then Err(RideNotOpen)
    else Ok(Quote(r, s.rides[r].fare.value.amount, s.rides[r].fare.value.currency))
  }

  // ---- Driver responses ----

  function ContextOf(f: Fleet, d: UserId, service: ServiceCode, fare: Money): OperationContext
    requires Equipped(f, d, service)
  {
    OperationContext(f.selections[d], service, f.catalog[service].displayName, f.profiles[d].displayName,
                     f.vehicles[f.selections[d]].details, fare)
  }

  predicate OfferRowAllowed(amount: int, currency: string) {
    0 < amount <= 1_300_000_000_000 && CurrencyCode(currency)
  }

  /** The checks of an offer in order, on a state with its deadlines applied; on success the row to insert. */
  function OfferDecision(
    x: State, now: Time, k: Pair, amount: int, minimum: int, maximum: int, currency: string): (offer: Result<Offer>)
    ensures offer.Ok? ==> k in x.opportunities && x.opportunities[k].status.Open? && k !in x.offers
  {
    if k.ride !in x.rides then
      Err(RideNotFound)
    else if !(RideLive(x, k.ride, now) && x.rides[k.ride].fare.value.currency == currency) then
      Err(RideNotOpen)
    else if k.driver == x.rides[k.ride].rider then
      Err(DriverIneligible)
    else if !(minimum <= amount <= maximum) then
      Err(AmountOutOfRange)
    else if !(k in x.opportunities && x.opportunities[k].status.Open? && x.opportunities[k].visibleUntil > now) then
      Err(OpportunityNotOpen)
    else if !Eligible(x, k.driver, x.rides[k.ride].service, now) then
      Err(DriverIneligible)
    else if !OfferRowAllowed(amount, currency) then
      Err(ConstraintViolation)
    else if k in x.offers then
      Err(OpportunityNotOpen)
    else
      var context := ContextOf(x.fleet, k.driver, x.rides[k.ride].service, Money(amount, currency));
      Ok(Offer(amount, currency, Pending, now, now, now + x.policy.offerTtl * SECOND, None, context))
  }

  function Upsert(s: State, now: Time, k: Pair, amount: int, minimum: int, maximum: int, currency: string): Tx<Offer> {
    var x := Settle(s, now);
    var offer := OfferDecision(x, now, k, amount, minimum, maximum, currency);
    if offer.Err? then Tx(s, offer)
    else
      Tx(x.(offers := x.offers[k := offer.value],
            opportunities := x.opportunities[k := x.opportunities[k].(status := Offered, respondedAt := Some(now))]),
         offer)
  }

  /** A driver's own amount, checked against the quote first; the quote may be older than the write. */
  function Submit(s: State, now: Time, q: Quote, d: UserId, amount: int): Tx<Offer> {
    if !(Minimum(q.amount) <= amount <= Maximum(q.amount)) then Tx(s, Err(AmountOutOfRange))
    else Upsert(s, now, Pair(q.ride, d), amount, Minimum(q.amount), Maximum(q.amount), q.currency)
  }

  function AcceptProposed(s: State, now: Time, q: Quote, d: UserId): Tx<Offer> {
    Upsert(s, now, Pair(q.ride, d), q.amount, Minimum(q.amount), Maximum(q.amount), q.currency)
  }

  predicate CanSkip(x: State, now: Time, k: Pair) {
    && k in x.opportunities
    && x.opportunities[k].status.Open? && x.opportunities[k].visibleUntil > now
    && k.ride in x.rides
    && x.rides[k.ride].status.RideRequested? && x.rides[k.ride].expiresAt > now
  }

  function Skip(s: State, now: Time, k: Pair): Tx<()> {
    var x := Settle(s, now);
    if !CanSkip(x, now, k) then Tx(s, Err(OpportunityNotOpen))
    else Tx(x.(opportunities :=
                 x.opportunities[k := x.opportunities[k].(status := DriverSkipped, respondedAt := Some(now))]),
            Ok(()))
  }

  /** A read of the stored row, whatever its deadline. */
  function GetOffer(s: State, k: Pair): Result<Offer> {
    if k in s.offers then Ok(s.offers[k]) else Err(OfferNotFound)
  }

  // ---- Rider decisions ----

  function Reject(s: State, now: Time, k: Pair, rider: UserId): Tx<Offer> {
    var x := Settle(s, now);
    if !(k.ride in x.rides && x.rides[k.ride].rider == rider) then
      Tx(s, Err(RideNotFound))
    else if !RideLive(x, k.ride, now) then
      Tx(s, Err(RideNotOpen))
    else if k !in x.offers then
      Tx(s, Err(OfferNotFound))
    else if x.offers[k].status.Pending? then
      var offer := DecideOffer(x.offers[k], Rejected, now);
      Tx(x.(offers := x.offers[k := offer], opportunities := RejectOpportunity(x.opportunities, k)), Ok(offer))
    else if x.offers[k].status.Rejected? then
      Tx(x, Ok(x.offers[k]))
    else
      Tx(s, Err(OfferNotActionable))
  }

  function RejectOpportunity(opportunities: map<Pair, Opportunity>, k: Pair): map<Pair, Opportunity> {
    if k in opportunities && opportunities[k].status.Offered?
    then opportunities[k := opportunities[k].(status := RiderRejected)] else opportunities
  }

  function AcceptOpportunity(opportunities: map<Pair, Opportunity>, k: Pair): map<Pair, Opportunity> {
    if k in opportunities && opportunities[k].status.Offered?
    then opportunities[k := opportunities[k].(status := OpportunityAccepted)] else opportunities
  }

  /** Close the pending offers of a ride, except those of one driver when given. */
  function CloseRideOffers(offers: map<Pair, Offer>, r: RideId, except: Option<UserId>, now: Time): map<Pair, Offer> {
    map k | k in offers ::
      if k.ride == r && Some(k.driver) != except && offers[k].status.Pending?
      then DecideOffer(offers[k], OfferClosed, now) else offers[k]
  }

  function CloseRideOpportunities(
    opportunities: map<Pair, Opportunity>, r: RideId, except: Option<UserId>, now: Time): map<Pair, Opportunity>
  {
    map k | k in opportunities ::
      var o := opportunities[k];
      if k.ride == r && Some(k.driver) != except && (o.status.Open? || o.status.Offered?)
      then CloseOpportunity(o, now) else o
  }

  const UNSETTLED := Settlement(false, None, None, None)

  function NewTrip(rider: UserId, d: UserId, now: Time, context: OperationContext): Trip {
    Trip(rider, d, Assigned, now, None, None, None, context, UNSETTLED)
  }

  /** The checks of a selection in order, on a state with its deadlines applied. */
  function SelectRefusal(x: State, now: Time, k: Pair, rider: UserId, version: Time): (refusal: Option<Error>)
    ensures refusal.None? ==> k in x.offers && k.ride in x.rides
  {
    if k.ride !in x.rides then
      Some(MarketNotOpen)
    else if x.rides[k.ride].rider != rider then
      Some(OfferNotActionable)
    else if !RideLive(x, k.ride, now) then
      Some(MarketNotOpen)
    else if !(k in x.offers && x.offers[k].status.Pending? && x.offers[k].expiresAt > now
              && x.offers[k].updatedAt == version) then
      Some(OfferNotActionable)
    else if !(k in x.opportunities && x.opportunities[k].status.Offered?) then
      Some(OfferNotActionable)
    else if !Eligible(x, k.driver, x.rides[k.ride].service, now) || !OperationMatches(x, k) then
      Some(DriverUnavailable)
    else if k.driver == rider then
      Some(ConstraintViolation)
    else None
  }

  function SelectOffer(s: State, now: Time, k: Pair, rider: UserId, version: Time): Tx<Trip> {
    var x := Settle(s, now);
    var refusal := SelectRefusal(x, now, k, rider, version);
    if refusal.Some? then Tx(s, Err(refusal.value))
    else
      var trip := NewTrip(rider, k.driver, now, x.offers[k].context);
      var accepted := x.offers[k := DecideOffer(x.offers[k], OfferAccepted, now)];
      Tx(x.(offers := CloseRideOffers(accepted, k.ride, Some(k.driver), now),
            opportunities :=
              CloseRideOpportunities(AcceptOpportunity(x.opportunities, k), k.ride, Some(k.driver), now),
            trips := x.trips[k.ride := trip],
            rides := x.rides[k.ride := x.rides[k.ride].(status := RideAccepted)]),
         Ok(trip))
  }

  // ---- Cancellation ----

  datatype CancelResult = CancelResult(ride: RideId, actor: Actor, at: Time, trip: Option<Trip>)

  function ExistingResult(x: State, r: RideId, trip: Option<Trip>): Result<CancelResult>
    requires r in x.rides
  {
    var c := x.rides[r].cancellation;
    if c.None? then Err(InconsistentRow)
    else if trip.Some? && (!trip.value.status.TripCancelled? || trip.value.cancelledAt.None?) then Err(InconsistentRow)
    else Ok(CancelResult(r, c.value.actor, c.value.at, trip))
  }

  function CancelTrip(trip: Trip, at: Time): Trip {
    trip.(status := TripCancelled, cancelledAt := Some(at))
  }

  function CancelLocked(s: State, x: State, now: Time, r: RideId, actor: Actor, trip: Option<Trip>): Tx<CancelResult>
    requires r in x.rides
  {
    if trip.Some? && !ActiveTrip(trip.value) then
      Tx(s, Err(if trip.value.status.Completed? then TripCompletedError else InconsistentRow))
    else
      var ride := x.rides[r].(status := RideCancelled, cancellation := Some(Cancellation(actor, now)));
      var after := if trip.Some? then Some(CancelTrip(trip.value, now)) else None;
      Tx(x.(rides := x.rides[r := ride],
            trips := if after.Some? then x.trips[r := after.value] else x.trips,
            offers := CloseRideOffers(x.offers, r, None, now),
            opportunities := CloseRideOpportunities(x.opportunities, r, None, now)),
         Ok(CancelResult(r, actor, now, after)))
  }

  function Cancel(s: State, x: State, now: Time, r: RideId, actor: Actor, trip: Option<Trip>): Tx<CancelResult>
    requires r in x.rides
  {
    match x.rides[r].status
    case RideCancelled =>
      var existing := ExistingResult(x, r, trip);
      Tx(if existing.Ok? then x else s, existing)
    case RideExpired => Tx(s, Err(RideExpiredError))
    case _ =>
      if trip.Some? && trip.value.status.Completed? then Tx(s, Err(TripCompletedError))
      else CancelLocked(s, x, now, r, actor, trip)
  }

  function CancelByRider(s: State, now: Time, r: RideId, rider: UserId): Tx<CancelResult> {
    var x := Settle(s, now);
    if !(r in x.rides && x.rides[r].rider == rider) then Tx(s, Err(CancellationNotFound))
    else Cancel(s, x, now, r, RiderActor, if r in x.trips then Some(x.trips[r]) else None)
  }

  function CancelByDriver(s: State, now: Time, r: RideId, d: UserId): Tx<CancelResult> {
    var x := Settle(s, now);
    if !(r in x.rides && r in x.trips && x.trips[r].driver == d) then Tx(s, Err(CancellationNotFound))
    else Cancel(s, x, now, r, DriverActor, Some(x.trips[r]))
  }

  // ---- Trip execution ----

  predicate TripOf(s: State, r: RideId, d: UserId) {
    r in s.trips && s.trips[r].driver == d
  }

  function Start(s: State, now: Time, r: RideId, d: UserId): Tx<Trip> {
    if !TripOf(s, r, d) then Tx(s, Err(TripNotFound))
    else match s.trips[r].status
      case Assigned =>
        var trip := s.trips[r].(status := InProgress, startedAt := Some(now));
        Tx(s.(trips := s.trips[r := trip]), Ok(trip))
      case InProgress => Tx(s, Ok(s.trips[r]))
      case Completed => Tx(s, Err(TripCompletedError))
      case TripCancelled => Tx(s, Err(TripCancelledError))
  }

  function Complete(s: State, now: Time, r: RideId, d: UserId): Tx<Trip> {
    if !TripOf(s, r, d) then Tx(s, Err(TripNotFound))
    else match s.trips[r].status
      case Assigned => Tx(s, Err(TripNotStarted))
      case InProgress =>
        var trip := s.trips[r].(status := Completed, completedAt := Some(now));
        Tx(s.(trips := s.trips[r := trip]), Ok(trip))
      case Completed =>
        Tx(s, if s.trips[r].completedAt.None? then Err(InconsistentRow) else Ok(s.trips[r]))
      case TripCancelled => Tx(s, Err(TripCancelledError))
  }

  function ConfirmCashCollected(s: State, now: Time, r: RideId, d: UserId): Tx<Trip> {
    if !TripOf(s, r, d) then Tx(s, Err(TripNotFound))
    else match s.trips[r].status
      case Completed =>
        var settlement := s.trips[r].settlement;
        if !settlement.collected then
          var trip := s.trips[r].(settlement := Settlement(true, Some("cash"), Some(now), Some(s.trips[r].driver)));
          Tx(s.(trips := s.trips[r := trip]), Ok(trip))
        else Tx(s, if settlement.means.None? || settlement.at.None? then Err(InconsistentRow) else Ok(s.trips[r]))
      case TripCancelled => Tx(s, Err(TripCancelledError))
      case _ => Tx(s, Err(TripNotCompleted))
  }

  // ---- Driver presence and selection ----

  /** Offline whoever is in scope, online, not skipped by the row lock, and without a fresh position. */
  function ExpirePresence(f: Fleet, now: Time, only: Option<UserId>, skipped: set<UserId>): Fleet {
    f.(profiles := map d | d in f.profiles ::
      if f.profiles[d].online && (only.None? || only.value == d) && d !in skipped && !FreshPosition(f, d, now)
      then f.profiles[d].(online := false) else f.profiles[d])
  }

  predicate ServesSomething(f: Fleet, v: VehicleId) {
    exists e | e in f.enrollments :: e.vehicle == v && e.service in f.catalog && f.catalog[e.service].active
  }

  /** The selected vehicle is owned and serves an active service, and the user may drive. */
  predicate CanGoOnline(f: Fleet, d: UserId) {
    && d in f.selections && f.selections[d] in f.vehicles && f.vehicles[f.selections[d]].owner == d
    && ServesSomething(f, f.selections[d])
    && d in f.capable
  }

  datatype ProfileView = ProfileView(profile: Profile, vehicle: VehicleId, details: VehicleDetails)

  /** ORDER BY created_at ASC, id ASC: the driver's vehicle that LIMIT 1 keeps. */
  predicate FirstVehicle(f: Fleet, d: UserId, v: VehicleId) {
    && v in f.vehicles && f.vehicles[v].owner == d
    && forall w | w in f.vehicles && f.vehicles[w].owner == d && w != v :: RegisteredBefore(f.vehicles, v, w)
  }

  predicate RegisteredBefore(vehicles: map<VehicleId, Vehicle>, v: VehicleId, w: VehicleId)
    requires v in vehicles && w in vehicles
  {
    || vehicles[v].createdAt < vehicles[w].createdAt
    || (vehicles[v].createdAt == vehicles[w].createdAt && v < w)
  }

  lemma HasFirstAmong(vehicles: map<VehicleId, Vehicle>, among: set<VehicleId>) returns (v: VehicleId)
    requires among <= vehicles.Keys && among != {}
    ensures v in among && forall w | w in among && w != v :: RegisteredBefore(vehicles, v, w)
    decreases |among|
  {
    var a :| a in among;
    var rest := among - {a};
    assert among == {a} + rest;
    v := a;
    if rest != {} {
      var b := HasFirstAmong(vehicles, rest);
      if RegisteredBefore(vehicles, b, a) { v := b; }
      forall w | w in among && w != v ensures RegisteredBefore(vehicles, v, w) {
        assert w == a || w in rest;
        assert w == a || w == b || RegisteredBefore(vehicles, b, w);
        assert RegisteredBefore(vehicles, a, b) || RegisteredBefore(vehicles, b, a);
      }
    }
  }

  lemma HasFirstVehicle(f: Fleet, d: UserId)
    requires OwnsVehicle(f, d)
    ensures exists v: VehicleId :: FirstVehicle(f, d, v)
  {
    var owned := set v | v in f.vehicles && f.vehicles[v].owner == d;
    var any :| any in f.vehicles && f.vehicles[any].owner == d;
    assert any in owned;
    var v := HasFirstAmong(f.vehicles, owned);
    assert FirstVehicle(f, d, v);
  }

  function FirstVehicleOf(f: Fleet, d: UserId): (v: VehicleId)
    requires OwnsVehicle(f, d)
    ensures FirstVehicle(f, d, v)
  {
    HasFirstVehicle(f, d);
    var v :| v in f.vehicles && FirstVehicle(f, d, v);
    v
  }

  /** The profile joined with its first vehicle. */
  function FindByUserID(f: Fleet, d: UserId): Result<ProfileView> {
    if !(d in f.profiles && OwnsVehicle(f, d)) then Err(ProfileNotFound)
    else
      var v := FirstVehicleOf(f, d);
      Ok(ProfileView(f.profiles[d], v, f.vehicles[v].details))
  }

  /** Going online also activates the profile. */
  function WithOnline(f: Fleet, d: UserId, online: bool): Fleet
    requires d in f.profiles
  {
    var row := f.profiles[d];
    f.(profiles := f.profiles[d := row.(online := online, status := if online then Active else row.status)])
  }

  function SetOnline(s: State, now: Time, d: UserId, online: bool): Tx<ProfileView> {
    if d !in s.fleet.profiles then
      Tx(s, Err(ProfileNotFound))
    else if online && !CanGoOnline(s.fleet, d) then
      Tx(s, Err(SelectionInvalid))
    else if online && !FreshPosition(s.fleet, d, now) then
      Tx(s, Err(LocationRequired))
    else if online && Busy(s.trips, d) then
      Tx(s, Err(TripActive))
    else
      var f := ExpirePresence(WithOnline(s.fleet, d, online), now, Some(d), {});
      Tx(s.(fleet := f), FindByUserID(f, d))
  }

  datatype OperatingState = OperatingState(selection: Option<(VehicleId, bool)>, canChange: bool)

  function ReadOperatingState(s: State, d: UserId): Result<OperatingState> {
    if d !in s.fleet.profiles then Err(ProfileNotFound)
    else
      var f := s.fleet;
      var selection :=
        if d in f.selections then
          var v := f.selections[d];
          Some((v, v in f.vehicles && f.vehicles[v].owner == d && ServesSomething(f, v)))
        else None;
      Ok(OperatingState(selection, !f.profiles[d].online && !Busy(s.trips, d)))
  }

  /** Presence is expired in its own transaction first, so that part survives a refusal. */
  function SelectOperation(s: State, now: Time, d: UserId, v: VehicleId): Tx<OperatingState> {
    var p := s.(fleet := ExpirePresence(s.fleet, now, Some(d), {}));
    if d !in p.fleet.profiles then
      Tx(p, Err(ProfileNotFound))
    else if p.fleet.profiles[d].online || Busy(p.trips, d) then
      Tx(p, Err(SelectionLocked))
    else if !(v in p.fleet.vehicles && p.fleet.vehicles[v].owner == d && ServesSomething(p.fleet, v)
              && d in p.fleet.capable) then
      Tx(p, Err(SelectionInvalid))
    else
      var q := p.(fleet := p.fleet.(selections := p.fleet.selections[d := v]));
      Tx(q, ReadOperatingState(q, d))
  }

  /** A heartbeat first drops a lapsed presence, then stores the new position. */
  function UpdateLocation(s: State, now: Time, d: UserId, point: Point): Tx<Position> {
    if d !in s.fleet.profiles then Tx(s, Err(ProfileNotFound))
    else
      var f := ExpirePresence(s.fleet, now, Some(d), {});
      var position := Position(point, now);
      Tx(s.(fleet := f.(positions := f.positions[d := position])), Ok(position))
  }

  // ---- Discovery ----

  /** The order of the feed: nearest pickup, then oldest, then by identifier. */
  predicate Before(rides: map<RideId, Ride>, at: Point, metric: Metric, a: RideId, b: RideId)
    requires a in rides && b in rides
  {
    var da, db := metric(at, rides[a].pickup), metric(at, rides[b].pickup);
    || da < db
    || (da == db && rides[a].createdAt < rides[b].createdAt)
    || (da == db && rides[a].createdAt == rides[b].createdAt && a < b)
  }

  function Preceding(candidates: set<RideId>, a: RideId, rides: map<RideId, Ride>, at: Point, metric: Metric): set<RideId>
    requires candidates <= rides.Keys && a in rides
  {
    set b | b in candidates && Before(rides, at, metric, b, a)
  }

  /** ORDER BY ... LIMIT n: the rows that fewer than n rows precede. */
  function Top(candidates: set<RideId>, n: int, rides: map<RideId, Ride>, at: Point, metric: Metric): (top: set<RideId>)
    requires candidates <= rides.Keys
    ensures top <= candidates
  {
    set a | a in candidates && |Preceding(candidates, a, rides, at, metric)| < n
  }

  /** The rides that may newly be opened to the driver. */
  function Openable(x: State, now: Time, d: UserId): set<RideId> {
    set r | r in x.rides
      && RideLive(x, r, now)
      && x.rides[r].rider != d
      && Pair(r, d) !in x.opportunities
      && Eligible(x, d, x.rides[r].service, now)
  }

  function OpenWindows(x: State, now: Time, d: UserId): set<Pair> {
    set k | k in x.opportunities
      && k.driver == d && x.opportunities[k].status.Open? && x.opportunities[k].visibleUntil > now
  }

  function NewOpportunity(s: State, now: Time): Opportunity {
    Opportunity(Open, now, now + s.policy.opportunityTtl * SECOND, None)
  }

  function OpenedBy(x: State, now: Time, d: UserId, limit: nat, metric: Metric): set<RideId> {
    if d !in x.fleet.positions then {}
    else Top(Openable(x, now, d), limit - |OpenWindows(x, now, d)|, x.rides, x.fleet.positions[d].point, metric)
  }

  function PairsOf(chosen: set<RideId>, d: UserId): (pairs: set<Pair>)
    ensures forall k :: k in pairs <==> k.ride in chosen && k.driver == d
  {
    var pairs := set r | r in chosen :: Pair(r, d);
    assert forall k: Pair | k.driver == d :: k == Pair(k.ride, d);
    pairs
  }

  function WithOpened(x: State, now: Time, d: UserId, chosen: set<RideId>): State {
    var added := map k | k in PairsOf(chosen, d) :: NewOpportunity(x, now);
    x.(opportunities := x.opportunities + added)
  }

  /** The feed's row condition; it does not repeat every check made when a window opened. */
  function Feed(x: State, now: Time, d: UserId): set<RideId> {
    set r | r in x.rides
      && Pair(r, d) in OpenWindows(x, now, d)
      && x.rides[r].status.RideRequested? && x.rides[r].expiresAt > now
      && r !in x.trips
      && Equipped(x.fleet, d, x.rides[r].service)
      && Present(x.fleet, d, now)
      && !Busy(x.trips, d)
  }

  datatype DiscoveryItem = DiscoveryItem(
    ride: RideId, rider: UserId, pickup: Point, fare: Money,
    createdAt: Time, rideExpiresAt: Time, windowEndsAt: Time, distance: real)

  function Item(x: State, r: RideId, d: UserId, metric: Metric): DiscoveryItem
    requires r in x.rides && x.rides[r].fare.Some? && Pair(r, d) in x.opportunities && d in x.fleet.positions
  {
    var ride := x.rides[r];
    DiscoveryItem(r, ride.rider, ride.pickup, ride.fare.value, ride.createdAt, ride.expiresAt,
                  x.opportunities[Pair(r, d)].visibleUntil, metric(x.fleet.positions[d].point, ride.pickup))
  }

  function Shown(x: State, now: Time, d: UserId, limit: nat, metric: Metric): set<RideId> {
    if d !in x.fleet.positions then {}
    else Top(Feed(x, now, d), limit, x.rides, x.fleet.positions[d].point, metric)
  }

  function Discover(s: State, now: Time, d: UserId, limit: nat, metric: Metric): Tx<set<DiscoveryItem>> {
    var x := Settle(s, now);
    var y := WithOpened(x, now, d, OpenedBy(x, now, d, limit, metric));
    var shown := Shown(y, now, d, limit, metric);
    if exists r | r in shown :: y.rides[r].fare.None? then Tx(s, Err(InconsistentRow))
    else Tx(y, Ok(set r | r in shown :: Item(y, r, d, metric)))
  }

  // ---- The rider's comparison view ----

  datatype RiderOffer = RiderOffer(
    driver: UserId, offer: Offer, distance: Option<real>, matchesProposedFare: bool, selectable: bool)

  predicate Listed(s: State, now: Time, k: Pair) {
    && k in s.offers && k in s.opportunities
    && s.offers[k].status.Pending? && s.offers[k].expiresAt > now
    && s.opportunities[k].status.Offered?
  }

  predicate Selectable(s: State, now: Time, k: Pair)
    requires k.ride in s.rides && k in s.offers
  {
    var service := s.rides[k.ride].service;
    && Listed(s, now, k)
    && s.rides[k.ride].expiresAt > now
    && Present(s.fleet, k.driver, now)
    && Equipped(s.fleet, k.driver, service)
    && k.driver in s.fleet.capable
    && s.offers[k].context.vehicle == s.fleet.selections[k.driver]
    && s.offers[k].context.service == service
    && k.driver != s.rides[k.ride].rider
    && !Busy(s.trips, k.driver)
  }

  function RiderItem(s: State, now: Time, k: Pair, metric: Metric): RiderOffer
    requires RideLive(s, k.ride, now) && k in s.offers
  {
    var offer := s.offers[k];
    var f := s.fleet;
    RiderOffer(k.driver, offer,
      if k.driver in f.profiles && FreshPosition(f, k.driver, now)
      then Some(metric(f.positions[k.driver].point, s.rides[k.ride].pickup)) else None,
      Some(Money(offer.amount, offer.currency)) == s.rides[k.ride].fare,
      Selectable(s, now, k))
  }

  function ListForRider(s: State, now: Time, r: RideId, rider: UserId, metric: Metric): Result<set<RiderOffer>> {
    if !(r in s.rides && s.rides[r].rider == rider && r !in s.trips) then Err(RideNotFound)
    else if !RideLive(s, r, now) then Err(RideNotOpen)
    else Ok(set k | k in s.offers && k.ride == r && Listed(s, now, k) :: RiderItem(s, now, k, metric))
  }

  // ---- Effects of neighbouring components ----

  predicate PolicyAllowed(p: TimingPolicy) {
    60 <= p.rideTtl <= 600 && 10 <= p.opportunityTtl <= 60 && 5 <= p.offerTtl <= 60
  }

  /** The rows an approved application adds: a vehicle, its enrollment, and a profile when missing. */
  function Enroll(f: Fleet, now: Time, d: UserId, name: string, v: VehicleId, details: VehicleDetails,
                  service: ServiceCode): Fleet
  {
    if v in f.vehicles then f
    else f.(profiles := if d in f.profiles then f.profiles else f.profiles[d := Profile(name, Approved, false)],
            vehicles := f.vehicles[v := Vehicle(d, details, now)],
            enrollments := f.enrollments + {Enrollment(v, service)})
  }
}
