/** The tables of the ride marketplace, one map per table, and the predicates the queries share. */
module MarketState {
  import opened Base

  const LOCATION_MAX_AGE: int := 120 * SECOND
  const DISCOVERY_LIMIT: nat := 50
  const MAX_FARE_MINOR: int := 1_000_000_000_000

  datatype Actor = RiderActor | DriverActor
  datatype Cancellation = Cancellation(actor: Actor, at: Time)

  datatype RideStatus = RideRequested | RideAccepted | RideCancelled | RideExpired
  datatype Ride = Ride(
    rider: UserId, service: ServiceCode, fare: Option<Money>, pickup: Point,
    createdAt: Time, expiresAt: Time, status: RideStatus, cancellation: Option<Cancellation>)

  /** Opportunities and offers are keyed by the pair of ride and driver. */
  datatype Pair = Pair(ride: RideId, driver: UserId)

  datatype OpportunityStatus =
    | Open | DriverSkipped | WindowExpired | Offered
    | RiderRejected | OfferExpired | OpportunityAccepted | OpportunityClosed
  datatype Opportunity = Opportunity(
    status: OpportunityStatus, openedAt: Time, visibleUntil: Time, respondedAt: Option<Time>)

  datatype VehicleDetails = VehicleDetails(
    make: string, model: string, modelYear: int, color: string, plate: string)
  datatype OperationContext = OperationContext(
    vehicle: VehicleId, service: ServiceCode, serviceName: string, driverName: string,
    details: VehicleDetails, fare: Money)

  datatype OfferStatus = Pending | OfferAccepted | Rejected | Expired | OfferClosed
  datatype Offer = Offer(
    amount: int, currency: string, status: OfferStatus,
    createdAt: Time, updatedAt: Time, expiresAt: Time, decidedAt: Option<Time>,
    context: OperationContext)

  datatype TripStatus = Assigned | InProgress | Completed | TripCancelled
  datatype Settlement = Settlement(
    collected: bool, means: Option<string>, at: Option<Time>, confirmedBy: Option<UserId>)
  datatype Trip = Trip(
    rider: UserId, driver: UserId, status: TripStatus, assignedAt: Time,
    startedAt: Option<Time>, completedAt: Option<Time>, cancelledAt: Option<Time>,
    context: OperationContext, settlement: Settlement)

  datatype ProfileStatus = Approved | Active
  datatype Profile = Profile(displayName: string, status: ProfileStatus, online: bool)
  datatype Vehicle = Vehicle(owner: UserId, details: VehicleDetails, createdAt: Time)
  datatype Enrollment = Enrollment(vehicle: VehicleId, service: ServiceCode)
  datatype Service = Service(displayName: string, active: bool, riderVisible: bool)
  datatype Position = Position(point: Point, updatedAt: Time)

  /** The driver-side tables; `capable` holds the users with the driver capability. */
  datatype Fleet = Fleet(
    profiles: map<UserId, Profile>,
    selections: map<UserId, VehicleId>,
    vehicles: map<VehicleId, Vehicle>,
    enrollments: set<Enrollment>,
    catalog: map<ServiceCode, Service>,
    capable: set<UserId>,
    positions: map<UserId, Position>)

  datatype TimingPolicy = TimingPolicy(rideTtl: int, opportunityTtl: int, offerTtl: int)

  datatype State = State(
    rides: map<RideId, Ride>,
    opportunities: map<Pair, Opportunity>,
    offers: map<Pair, Offer>,
    trips: map<RideId, Trip>,
    fleet: Fleet,
    policy: TimingPolicy)

  /** A transaction's outcome: the committed state (the old one after a rollback) and its reply. */
  datatype Tx<+T> = Tx(state: State, result: Result<T>)

  predicate ActiveTrip(trip: Trip) {
    trip.status.Assigned? || trip.status.InProgress?
  }

  predicate Busy(trips: map<RideId, Trip>, d: UserId) {
    exists r | r in trips :: trips[r].driver == d && ActiveTrip(trips[r])
  }

  predicate OwnsVehicle(f: Fleet, d: UserId) {
    exists v | v in f.vehicles :: f.vehicles[v].owner == d
  }

  /** A stored instant lies in the two-minute window that ends now. */
  predicate Fresh(at: Time, now: Time) {
    now - LOCATION_MAX_AGE <= at <= now
  }

  predicate FreshPosition(f: Fleet, d: UserId, now: Time) {
    d in f.positions && Fresh(f.positions[d].updatedAt, now)
  }

  /** The selected vehicle is the driver's own and enrolled in an active service. */
  predicate Equipped(f: Fleet, d: UserId, service: ServiceCode) {
    && d in f.profiles
    && d in f.selections
    && f.selections[d] in f.vehicles
    && f.vehicles[f.selections[d]].owner == d
    && Enrollment(f.selections[d], service) in f.enrollments
    && service in f.catalog && f.catalog[service].active
  }

  predicate Present(f: Fleet, d: UserId, now: Time) {
    && d in f.profiles
    && f.profiles[d].status.Active? && f.profiles[d].online
    && FreshPosition(f, d, now)
  }

  /** What LockMarketplaceEligible decides after taking its row locks. */
  predicate Eligible(s: State, d: UserId, service: ServiceCode, now: Time) {
    && Equipped(s.fleet, d, service)
    && d in s.fleet.capable
    && Present(s.fleet, d, now)
    && !Busy(s.trips, d)
  }

  /** The operation re-check of an assignment: the offer was made with the selected vehicle. */
  predicate OperationMatches(s: State, k: Pair) {
    && k in s.offers && k.ride in s.rides
    && k.driver in s.fleet.selections
    && var service := s.rides[k.ride].service;
    && Enrollment(s.fleet.selections[k.driver], service) in s.fleet.enrollments
    && service in s.fleet.catalog && s.fleet.catalog[service].active
    && s.offers[k].context.vehicle == s.fleet.selections[k.driver]
    && s.offers[k].context.service == service
  }

  /** A ride that can still receive and select offers at `now`. */
  predicate RideLive(s: State, r: RideId, now: Time) {
    && r in s.rides
    && s.rides[r].status.RideRequested?
    && s.rides[r].expiresAt > now
    && s.rides[r].fare.Some?
    && r !in s.trips
  }
}
