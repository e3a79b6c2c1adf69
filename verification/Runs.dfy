/** Runs of the marketplace: any sequence of transactions and sweep statements in time order. */
module Runs {
  import opened Base
  import opened MarketState
  import opened Expiry
  import opened Fares
  import opened Transactions
  import opened Invariants
  import opened Preservation
  import opened Discovery
  import opened Evolution

  datatype Event =
    | CreatesRide(ride: RideId, rider: UserId, service: ServiceCode, fare: Option<Money>, pickup: Point)
    | AsksMarket(ride: RideId)
    | Submits(quote: Quote, driver: UserId, amount: int)
    | AcceptsProposed(quote: Quote, driver: UserId)
    | Skips(pair: Pair)
    | Rejects(pair: Pair, rider: UserId)
    | Selects(pair: Pair, rider: UserId, version: Time)
    | ListsOffers(ride: RideId, rider: UserId)
    | Discovers(driver: UserId)
    | RiderCancels(ride: RideId, rider: UserId)
    | DriverCancels(ride: RideId, driver: UserId)
    | StartsTrip(ride: RideId, driver: UserId)
    | CompletesTrip(ride: RideId, driver: UserId)
    | ConfirmsCash(ride: RideId, driver: UserId)
    | SetsOnline(driver: UserId, online: bool)
    | ChoosesVehicle(driver: UserId, vehicle: VehicleId)
    | ReportsLocation(driver: UserId, point: Point)
    | ExpiresPresence(only: Option<UserId>, skipped: set<UserId>)
    | Enrolls(driver: UserId, name: string, vehicle: VehicleId, details: VehicleDetails, service: ServiceCode)
    | ChangesCatalog(catalog: map<ServiceCode, Service>)
    | GainsCapability(user: UserId)
    | ChangesPolicy(policy: TimingPolicy)
    | Sweeps(statement: nat)

  datatype Reply =
    | RideReply(ride: Result<Ride>)
    | QuoteReply(quote: Result<Quote>)
    | OfferReply(offer: Result<Offer>)
    | UnitReply(unit: Result<()>)
    | TripReply(trip: Result<Trip>)
    | ListReply(list: Result<set<RiderOffer>>)
    | FeedReply(feed: Result<set<DiscoveryItem>>)
    | CancelReply(cancel: Result<CancelResult>)
    | ProfileReply(profile: Result<ProfileView>)
    | OperatingReply(operating: Result<OperatingState>)
    | PositionReply(position: Result<Position>)
    | NoReply

  /** One event at one instant: the state it commits and what its caller sees. */
  function Apply(s: State, now: Time, e: Event, metric: Metric): (State, Reply)
    requires e.Sweeps? ==> e.statement < STATEMENTS
  {
    match e
    case CreatesRide(r, rider, service, fare, pickup) =>
      var o := CreateRide(s, now, r, rider, service, fare, pickup); (o.state, RideReply(o.result))
    case AsksMarket(r) => (s, QuoteReply(Market(s, now, r)))
    case Submits(q, d, amount) => var o := Submit(s, now, q, d, amount); (o.state, OfferReply(o.result))
    case AcceptsProposed(q, d) => var o := AcceptProposed(s, now, q, d); (o.state, OfferReply(o.result))
    case Skips(k) => var o := Skip(s, now, k); (o.state, UnitReply(o.result))
    case Rejects(k, rider) => var o := Reject(s, now, k, rider); (o.state, OfferReply(o.result))
    case Selects(k, rider, version) => var o := SelectOffer(s, now, k, rider, version); (o.state, TripReply(o.result))
    case ListsOffers(r, rider) => (s, ListReply(ListForRider(s, now, r, rider, metric)))
    case Discovers(d) => var o := Discover(s, now, d, DISCOVERY_LIMIT, metric); (o.state, FeedReply(o.result))
    case RiderCancels(r, rider) => var o := CancelByRider(s, now, r, rider); (o.state, CancelReply(o.result))
    case DriverCancels(r, d) => var o := CancelByDriver(s, now, r, d); (o.state, CancelReply(o.result))
    case StartsTrip(r, d) => var o := Start(s, now, r, d); (o.state, TripReply(o.result))
    case CompletesTrip(r, d) => var o := Complete(s, now, r, d); (o.state, TripReply(o.result))
    case ConfirmsCash(r, d) => var o := ConfirmCashCollected(s, now, r, d); (o.state, TripReply(o.result))
    case SetsOnline(d, online) => var o := SetOnline(s, now, d, online); (o.state, ProfileReply(o.result))
    case ChoosesVehicle(d, v) => var o := SelectOperation(s, now, d, v); (o.state, OperatingReply(o.result))
    case ReportsLocation(d, point) => var o := UpdateLocation(s, now, d, point); (o.state, PositionReply(o.result))
    case ExpiresPresence(only, skipped) => (s.(fleet := ExpirePresence(s.fleet, now, only, skipped)), NoReply)
    case Enrolls(d, name, v, details, service) =>
      (s.(fleet := Enroll(s.fleet, now, d, name, v, details, service)), NoReply)
    case ChangesCatalog(catalog) => (s.(fleet := s.fleet.(catalog := catalog, capable := s.fleet.capable)), NoReply)
    case GainsCapability(u) =>
      (s.(fleet := s.fleet.(catalog := s.fleet.catalog, capable := s.fleet.capable + {u})), NoReply)
    case ChangesPolicy(p) => (s.(policy := p), NoReply)
    case Sweeps(i) => (ExpireStatement(s, i, now), NoReply)
  }

  /** The database, the last instant, and the market quotes handed out so far. */
  datatype World = World(state: State, clock: Time, quotes: set<Quote>)

  /** An offer is submitted with some earlier quote; only valid policies are stored. */
  predicate Enabled(w: World, now: Time, e: Event) {
    && w.clock <= now
    && match e
       case Submits(q, _, _) => q in w.quotes
       case AcceptsProposed(q, _) => q in w.quotes
       case ChangesPolicy(p) => PolicyAllowed(p)
       case Sweeps(i) => i < STATEMENTS
       case _ => true
  }

  function NewQuotes(reply: Reply): set<Quote> {
    if reply.QuoteReply? && reply.quote.Ok? then {reply.quote.value} else {}
  }

  function Next(w: World, now: Time, e: Event, metric: Metric): World
    requires Enabled(w, now, e)
  {
    var (y, reply) := Apply(w.state, now, e, metric);
    World(y, now, w.quotes + NewQuotes(reply))
  }

  /** A quote names the ride's own fare; fares never change, so an old quote is still exact. */
  predicate Quoted(s: State, q: Quote) {
    q.ride in s.rides && s.rides[q.ride].fare == Some(Money(q.amount, q.currency))
  }

  ghost predicate WithinLimit(s: State, now: Time) {
    forall d :: |OpenWindows(s, now, d)| <= DISCOVERY_LIMIT
  }

  ghost predicate WorldInv(w: World) {
    && Inv(w.state, w.clock)
    && (forall q | q in w.quotes :: Quoted(w.state, q))
    && WithinLimit(w.state, w.clock)
  }

  function EmptyWorld(policy: TimingPolicy, clock: Time): World {
    World(State(map[], map[], map[], map[], Fleet(map[], map[], map[], {}, map[], {}, map[]), policy), clock, {})
  }

  lemma EmptyWorldInv(policy: TimingPolicy, clock: Time)
    requires PolicyAllowed(policy)
    ensures WorldInv(EmptyWorld(policy, clock))
  {
    var w := EmptyWorld(policy, clock);
    forall d ensures |OpenWindows(w.state, clock, d)| <= DISCOVERY_LIMIT {
      assert OpenWindows(w.state, clock, d) == {};
    }
  }

  // ---- Every event keeps the invariant ----

  lemma QuoteGivesBounds(s: State, q: Quote)
    requires Quoted(s, q)
    ensures BoundsOfRide(s, q.ride, Minimum(q.amount), Maximum(q.amount))
  {
  }

  lemma MarketQuotes(s: State, now: Time, r: RideId)
    ensures Market(s, now, r).Ok? ==> Quoted(s, Market(s, now, r).value)
  {
  }

  lemma EventKeepsInv(w: World, now: Time, e: Event, metric: Metric)
    requires WorldInv(w) && Enabled(w, now, e)
    ensures Inv(Apply(w.state, now, e, metric).0, now)
  {
    hide Inv, CreateRide, Market, Submit, Upsert, AcceptProposed, Skip, Reject, SelectOffer, ListForRider, Discover,
         CancelByRider, CancelByDriver, Start, Complete, ConfirmCashCollected, SetOnline, SelectOperation,
         UpdateLocation, ExpirePresence, Enroll, ExpireStatement, WithinLimit, PolicyAllowed;
    var s := w.state;
    InvLater(s, w.clock, now);
    match e
    case CreatesRide(r, rider, service, fare, pickup) => CreateRideKeepsInv(s, now, r, rider, service, fare, pickup);
    case Submits(q, d, amount) => OffersKeepInv(s, now, q, d, amount);
    case AcceptsProposed(q, d) => OffersKeepInv(s, now, q, d, q.amount);
    case Skips(k) => SkipKeepsInv(s, now, k);
    case Rejects(k, rider) => RejectKeepsInv(s, now, k, rider);
    case Selects(k, rider, version) => SelectOfferKeepsInv(s, now, k, rider, version);
    case Discovers(d) => DiscoverKeepsInv(s, now, d, DISCOVERY_LIMIT, metric);
    case RiderCancels(r, rider) => CancelsKeepInv(s, now, r, rider);
    case DriverCancels(r, d) => CancelsKeepInv(s, now, r, d);
    case StartsTrip(r, d) => ExecutionKeepsInv(s, now, r, d);
    case CompletesTrip(r, d) => ExecutionKeepsInv(s, now, r, d);
    case ConfirmsCash(r, d) => ExecutionKeepsInv(s, now, r, d);
    case Sweeps(i) => StatementKeepsInv(s, i, now, now);
    case _ => DriverSideKeepsInv(s, now, e, metric);
  }

  lemma DriverSideKeepsInv(s: State, now: Time, e: Event, metric: Metric)
    requires Inv(s, now) && DriverSide(e) && (e.ChangesPolicy? ==> PolicyAllowed(e.policy))
    ensures Inv(Apply(s, now, e, metric).0, now)
  {
    hide Inv, CreateRide, Market, Submit, Upsert, AcceptProposed, Skip, Reject, SelectOffer, ListForRider, Discover,
         CancelByRider, CancelByDriver, Start, Complete, ConfirmCashCollected, SetOnline, SelectOperation,
         UpdateLocation, ExpirePresence, Enroll, ExpireStatement, PolicyAllowed;
    match e
    case AsksMarket(_) =>
    case ListsOffers(_, _) =>
    case SetsOnline(d, online) => SetOnlineKeepsInv(s, now, d, online);
    case ChoosesVehicle(d, v) => SelectOperationKeepsInv(s, now, d, v);
    case ReportsLocation(d, point) => UpdateLocationKeepsInv(s, now, d, point);
    case ExpiresPresence(only, skipped) => PresenceKeepsInv(s, now, only, skipped);
    case Enrolls(d, name, v, details, service) => EnrollKeepsInv(s, now, d, name, v, details, service);
    case ChangesCatalog(catalog) => CatalogKeepsInv(s, now, catalog, s.fleet.capable);
    case GainsCapability(u) => CatalogKeepsInv(s, now, s.fleet.catalog, s.fleet.capable + {u});
    case ChangesPolicy(p) => PolicyKeepsInv(s, now, p);
  }

  lemma OffersKeepInv(s: State, now: Time, q: Quote, d: UserId, amount: int)
    requires Inv(s, now) && Quoted(s, q)
    ensures Inv(Submit(s, now, q, d, amount).state, now) && Inv(AcceptProposed(s, now, q, d).state, now)
  {
    hide Inv, Upsert, BoundsOfRide;
    QuoteGivesBounds(s, q);
    UpsertKeepsInv(s, now, Pair(q.ride, d), amount, Minimum(q.amount), Maximum(q.amount), q.currency);
    UpsertKeepsInv(s, now, Pair(q.ride, d), q.amount, Minimum(q.amount), Maximum(q.amount), q.currency);
  }

  // ---- Every event only moves rows forward ----

  lemma EventEvolves(s: State, now: Time, e: Event, metric: Metric)
    requires e.Sweeps? ==> e.statement < STATEMENTS
    ensures Evolves(s, Apply(s, now, e, metric).0)
  {
    hide Evolves, CreateRide, Market, Upsert, Skip, Reject, SelectOffer, ListForRider, Discover,
         CancelByRider, CancelByDriver, Start, Complete, ConfirmCashCollected, SetOnline, SelectOperation,
         UpdateLocation, ExpirePresence, Enroll, ExpireStatement;
    SameEvolves(s);
    match e
    case CreatesRide(r, rider, service, fare, pickup) => CreateRideEvolves(s, now, r, rider, service, fare, pickup);
    case Submits(q, d, amount) =>
      UpsertEvolves(s, now, Pair(q.ride, d), amount, Minimum(q.amount), Maximum(q.amount), q.currency);
    case AcceptsProposed(q, d) =>
      UpsertEvolves(s, now, Pair(q.ride, d), q.amount, Minimum(q.amount), Maximum(q.amount), q.currency);
    case Skips(k) => SkipEvolves(s, now, k);
    case Rejects(k, rider) => RejectEvolves(s, now, k, rider);
    case Selects(k, rider, version) => SelectOfferEvolves(s, now, k, rider, version);
    case Discovers(d) => DiscoverEvolves(s, now, d, DISCOVERY_LIMIT, metric);
    case RiderCancels(r, rider) => CancelsEvolve(s, now, r, rider);
    case DriverCancels(r, d) => CancelsEvolve(s, now, r, d);
    case StartsTrip(r, d) => ExecutionEvolves(s, now, r, d);
    case CompletesTrip(r, d) => ExecutionEvolves(s, now, r, d);
    case ConfirmsCash(r, d) => ExecutionEvolves(s, now, r, d);
    case Sweeps(i) => StatementEvolves(s, i, now);
    case _ => SameMarketEvolves(s, Apply(s, now, e, metric).0, now, e, metric);
  }

  lemma CreateRideEvolves(s: State, now: Time, r: RideId, rider: UserId, service: ServiceCode,
                          fare: Option<Money>, pickup: Point)
    ensures Evolves(s, CreateRide(s, now, r, rider, service, fare, pickup).state)
  {
  }

  /** Events of the driver side and of the environment leave the four market tables alone. */
  predicate DriverSide(e: Event) {
    e.SetsOnline? || e.ChoosesVehicle? || e.ReportsLocation? || e.ExpiresPresence? || e.Enrolls?
    || e.ChangesCatalog? || e.GainsCapability? || e.ChangesPolicy? || e.AsksMarket? || e.ListsOffers?
  }

  predicate SameMarket(s: State, y: State) {
    y.rides == s.rides && y.opportunities == s.opportunities && y.offers == s.offers && y.trips == s.trips
  }

  lemma ProfileEventsKeepMarket(s: State, now: Time, d: UserId, online: bool, v: VehicleId, point: Point)
    ensures SameMarket(s, SetOnline(s, now, d, online).state)
    ensures SameMarket(s, SelectOperation(s, now, d, v).state)
    ensures SameMarket(s, UpdateLocation(s, now, d, point).state)
  {
    hide ExpirePresence, Busy, CanGoOnline, ServesSomething, FreshPosition, ReadOperatingState, FindByUserID;
  }

  lemma DriverSideKeepsMarket(s: State, now: Time, e: Event, metric: Metric)
    requires DriverSide(e)
    ensures SameMarket(s, Apply(s, now, e, metric).0)
  {
    hide CreateRide, Market, Upsert, Submit, AcceptProposed, Skip, Reject, SelectOffer, ListForRider, Discover,
         CancelByRider, CancelByDriver, Start, Complete, ConfirmCashCollected, ExpireStatement,
         SetOnline, SelectOperation, UpdateLocation, ExpirePresence, Enroll;
    if e.SetsOnline? { ProfileEventsKeepMarket(s, now, e.driver, e.online, 0, Point(0.0, 0.0)); }
    if e.ChoosesVehicle? { ProfileEventsKeepMarket(s, now, e.driver, false, e.vehicle, Point(0.0, 0.0)); }
    if e.ReportsLocation? { ProfileEventsKeepMarket(s, now, e.driver, false, 0, e.point); }
  }

  lemma SameMarketEvolves(s: State, y: State, now: Time, e: Event, metric: Metric)
    requires DriverSide(e) && y == Apply(s, now, e, metric).0
    ensures Evolves(s, y)
  {
    hide Apply;
    DriverSideKeepsMarket(s, now, e, metric);
  }

  lemma EventKeepsQuotes(w: World, now: Time, e: Event, metric: Metric)
    requires WorldInv(w) && Enabled(w, now, e)
    ensures forall q | q in Next(w, now, e, metric).quotes :: Quoted(Next(w, now, e, metric).state, q)
  {
    hide Inv, WithinLimit, CreateRide, Market, Upsert, Submit, AcceptProposed, Skip, Reject, SelectOffer, ListForRider,
         Discover, CancelByRider, CancelByDriver, Start, Complete, ConfirmCashCollected, SetOnline, SelectOperation,
         UpdateLocation, ExpirePresence, Enroll, ExpireStatement;
    EventEvolves(w.state, now, e, metric);
    if e.AsksMarket? { MarketQuotes(w.state, now, e.ride); }
    var y := Next(w, now, e, metric).state;
    forall q | q in w.quotes ensures Quoted(y, q) {
      QuotesSurvive(w.state, y, q);
    }
  }

  lemma QuotesSurvive(s: State, y: State, q: Quote)
    requires Evolves(s, y) && Quoted(s, q)
    ensures Quoted(y, q)
  {
    assert RideEvolves(s.rides[q.ride], y.rides[q.ride]);
  }

  // ---- The discovery limit ----

  /** Without new rows, windows only close. */
  lemma WindowsOnlyClose(s: State, y: State, clock: Time, now: Time, d: UserId)
    requires OpportunitiesEvolve(s.opportunities, y.opportunities) && y.opportunities.Keys == s.opportunities.Keys
    requires clock <= now
    ensures |OpenWindows(y, now, d)| <= |OpenWindows(s, clock, d)|
  {
    forall k | k in OpenWindows(y, now, d) ensures k in OpenWindows(s, clock, d) {
      assert OpportunityEvolves(s.opportunities[k], y.opportunities[k]);
    }
    SubsetCardinality(OpenWindows(y, now, d), OpenWindows(s, clock, d));
  }

  lemma SettleKeepsKeys(s: State, now: Time)
    ensures Settle(s, now).opportunities.Keys == s.opportunities.Keys
  {
  }

  lemma ResponsesKeepKeys(s: State, now: Time, k: Pair, amount: int, minimum: int, maximum: int, currency: string)
    ensures Upsert(s, now, k, amount, minimum, maximum, currency).state.opportunities.Keys == s.opportunities.Keys
    ensures Skip(s, now, k).state.opportunities.Keys == s.opportunities.Keys
  {
    hide Settle, Eligible, RideLive;
    SettleKeepsKeys(s, now);
  }

  lemma DecisionsKeepKeys(s: State, now: Time, k: Pair, rider: UserId, version: Time)
    ensures Reject(s, now, k, rider).state.opportunities.Keys == s.opportunities.Keys
    ensures SelectOffer(s, now, k, rider, version).state.opportunities.Keys == s.opportunities.Keys
  {
    hide Settle, Eligible, RideLive;
    SettleKeepsKeys(s, now);
  }

  lemma CancelsKeepKeys(s: State, now: Time, r: RideId, u: UserId)
    ensures CancelByRider(s, now, r, u).state.opportunities.Keys == s.opportunities.Keys
    ensures CancelByDriver(s, now, r, u).state.opportunities.Keys == s.opportunities.Keys
  {
    hide Settle;
    SettleKeepsKeys(s, now);
  }

  /** Only discovery opens a window. */
  lemma OnlyDiscoveryOpens(s: State, now: Time, e: Event, metric: Metric)
    requires e.Sweeps? ==> e.statement < STATEMENTS
    requires !e.Discovers?
    ensures Apply(s, now, e, metric).0.opportunities.Keys == s.opportunities.Keys
  {
    hide Upsert, Skip, Reject, SelectOffer, Discover, CancelByRider, CancelByDriver, ListForRider, Market,
         SetOnline, SelectOperation, UpdateLocation, ExpirePresence, Enroll;
    if DriverSide(e) { DriverSideKeepsMarket(s, now, e, metric); }
    match e
    case Submits(q, d, amount) =>
      ResponsesKeepKeys(s, now, Pair(q.ride, d), amount, Minimum(q.amount), Maximum(q.amount), q.currency);
    case AcceptsProposed(q, d) =>
      ResponsesKeepKeys(s, now, Pair(q.ride, d), q.amount, Minimum(q.amount), Maximum(q.amount), q.currency);
    case Skips(k) => ResponsesKeepKeys(s, now, k, 0, 0, 0, "");
    case Rejects(k, rider) => DecisionsKeepKeys(s, now, k, rider, 0);
    case Selects(k, rider, version) => DecisionsKeepKeys(s, now, k, rider, version);
    case RiderCancels(r, rider) => CancelsKeepKeys(s, now, r, rider);
    case DriverCancels(r, d) => CancelsKeepKeys(s, now, r, d);
    case _ =>
  }

  lemma DiscoveryKeepsLimit(s: State, clock: Time, now: Time, d: UserId, metric: Metric)
    requires Inv(s, now) && WithinLimit(s, clock) && clock <= now
    ensures WithinLimit(Discover(s, now, d, DISCOVERY_LIMIT, metric).state, now)
  {
    hide Inv, Settle, Openable, OpenedBy, WithOpened, OpenWindows, Shown, OpportunitiesEvolve;
    var x := Settle(s, now);
    var chosen := OpenedBy(x, now, d, DISCOVERY_LIMIT, metric);
    SettleKeepsInv(s, now, now);
    SettleKeepsKeys(s, now);
    SettleEvolves(s, now);
    forall u ensures |OpenWindows(x, now, u)| <= DISCOVERY_LIMIT { WindowsOnlyClose(s, x, clock, now, u); }
    DiscoverSucceeds(s, now, d, DISCOVERY_LIMIT, metric);
    OpenedByIsOpenable(x, now, d, DISCOVERY_LIMIT, metric);
    OpeningStaysWithinLimit(x, now, d, DISCOVERY_LIMIT, metric);
    PolicyOf(x, now);
    WindowsAfterOpening(x, now, d, chosen);
  }

  lemma EventKeepsLimit(w: World, now: Time, e: Event, metric: Metric)
    requires WorldInv(w) && Enabled(w, now, e)
    ensures WithinLimit(Next(w, now, e, metric).state, now)
  {
    hide Inv, CreateRide, Market, Upsert, Submit, AcceptProposed, Skip, Reject, SelectOffer, ListForRider,
         Discover, CancelByRider, CancelByDriver, Start, Complete, ConfirmCashCollected, SetOnline, SelectOperation,
         UpdateLocation, ExpirePresence, Enroll, ExpireStatement, OpenWindows, OpportunitiesEvolve;
    var y := Apply(w.state, now, e, metric).0;
    if e.Discovers? {
      InvLater(w.state, w.clock, now);
      DiscoveryKeepsLimit(w.state, w.clock, now, e.driver, metric);
    } else {
      OnlyDiscoveryOpens(w.state, now, e, metric);
      EventEvolves(w.state, now, e, metric);
      forall d { WindowsOnlyClose(w.state, y, w.clock, now, d); }
    }
  }

  /** Every event keeps the whole invariant of a reachable world. */
  lemma NextKeepsWorldInv(w: World, now: Time, e: Event, metric: Metric)
    requires WorldInv(w) && Enabled(w, now, e)
    ensures WorldInv(Next(w, now, e, metric))
  {
    hide Inv, WithinLimit, Apply, Quoted;
    EventKeepsInv(w, now, e, metric);
    EventKeepsQuotes(w, now, e, metric);
    EventKeepsLimit(w, now, e, metric);
  }
}
