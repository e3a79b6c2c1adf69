/** The presence lease: being available now means having been continuously fresh since going online. */
module Presence {
  import opened Base
  import opened MarketState
  import opened Expiry
  import opened Fares
  import opened Transactions
  import opened Invariants
  import opened Preservation
  import opened Runs
  import opened Histories

  predicate Online(f: Fleet, d: UserId) {
    d in f.profiles && f.profiles[d].online
  }

  /** A successful request to go online. */
  predicate GoesOnline(w: World, step: Step, d: UserId, metric: Metric)
    requires Enabled(w, step.at, step.event)
  {
    && step.event == SetsOnline(d, true)
    && Apply(w.state, step.at, step.event, metric).1.profile.Ok?
  }

  ghost predicate FreshThroughout(f: Fleet, d: UserId, first: Time, last: Time) {
    forall t | first <= t <= last :: FreshPosition(f, d, t)
  }

  /**
   * From w's clock until `now`, across every step of the run, the driver stays online without asking
   * again, and at every instant the position stored at that instant is fresh.
   */
  ghost predicate Leased(w: World, run: seq<Step>, metric: Metric, d: UserId, now: Time)
    requires Runnable(w, run, metric)
    decreases |run|
  {
    && Online(w.state.fleet, d)
    && FreshThroughout(w.state.fleet, d, w.clock, if run == [] then now else run[0].at)
    && (run != [] ==>
          && !GoesOnline(w, run[0], d, metric)
          && Leased(Next(w, run[0].at, run[0].event, metric), run[1..], metric, d, now))
  }

  /** Some step of the run went online, and the lease has held from there to `now`. */
  ghost predicate LeasedSinceOnline(w: World, run: seq<Step>, metric: Metric, d: UserId, now: Time)
    requires Runnable(w, run, metric)
    decreases |run|
  {
    && run != []
    && var n := Next(w, run[0].at, run[0].event, metric);
    || (GoesOnline(w, run[0], d, metric) && Leased(n, run[1..], metric, d, now))
    || LeasedSinceOnline(n, run[1..], metric, d, now)
  }

  // ---- One step ----

  lemma SettleKeepsFleet(s: State, now: Time)
    ensures Settle(s, now).fleet == s.fleet
  {
  }

  lemma ResponsesKeepFleet(s: State, now: Time, k: Pair, amount: int, minimum: int, maximum: int, currency: string)
    ensures Upsert(s, now, k, amount, minimum, maximum, currency).state.fleet == s.fleet
    ensures Skip(s, now, k).state.fleet == s.fleet
  {
    hide Settle, Eligible, RideLive;
    SettleKeepsFleet(s, now);
  }

  lemma DecisionsKeepFleet(s: State, now: Time, k: Pair, rider: UserId, version: Time)
    ensures Reject(s, now, k, rider).state.fleet == s.fleet
    ensures SelectOffer(s, now, k, rider, version).state.fleet == s.fleet
  {
    hide Settle, Eligible, RideLive, OperationMatches;
    SettleKeepsFleet(s, now);
  }

  lemma CancelsKeepFleet(s: State, now: Time, r: RideId, u: UserId)
    ensures CancelByRider(s, now, r, u).state.fleet == s.fleet
    ensures CancelByDriver(s, now, r, u).state.fleet == s.fleet
  {
    hide Settle;
    SettleKeepsFleet(s, now);
  }

  lemma DiscoverKeepsFleet(s: State, now: Time, d: UserId, metric: Metric)
    ensures Discover(s, now, d, DISCOVERY_LIMIT, metric).state.fleet == s.fleet
  {
    hide Settle, OpenedBy, Shown;
    SettleKeepsFleet(s, now);
  }

  lemma MarketKeepsFleet(s: State, now: Time, e: Event, metric: Metric)
    requires e.Sweeps? ==> e.statement < STATEMENTS
    requires !DriverSide(e)
    ensures Apply(s, now, e, metric).0.fleet == s.fleet
  {
    hide Upsert, Skip, Reject, SelectOffer, Discover, CancelByRider, CancelByDriver, ListForRider, Market,
         SetOnline, SelectOperation, UpdateLocation, ExpirePresence, Enroll;
    match e
    case Submits(q, d, amount) =>
      ResponsesKeepFleet(s, now, Pair(q.ride, d), amount, Minimum(q.amount), Maximum(q.amount), q.currency);
    case AcceptsProposed(q, d) =>
      ResponsesKeepFleet(s, now, Pair(q.ride, d), q.amount, Minimum(q.amount), Maximum(q.amount), q.currency);
    case Skips(k) => ResponsesKeepFleet(s, now, k, 0, 0, 0, "");
    case Rejects(k, rider) => DecisionsKeepFleet(s, now, k, rider, 0);
    case Selects(k, rider, version) => DecisionsKeepFleet(s, now, k, rider, version);
    case Discovers(d) => DiscoverKeepsFleet(s, now, d, metric);
    case RiderCancels(r, rider) => CancelsKeepFleet(s, now, r, rider);
    case DriverCancels(r, d) => CancelsKeepFleet(s, now, r, d);
    case _ =>
  }

  /** What a step that leaves a driver online found before it. */
  predicate CarriesOver(f: Fleet, g: Fleet, d: UserId, now: Time) {
    Online(g, d) ==>
      && Online(f, d)
      && (FreshPosition(g, d, now) ==> FreshPosition(f, d, now))
  }

  lemma ProfileEventsCarryOver(s: State, now: Time, u: UserId, online: bool, v: VehicleId, point: Point, d: UserId)
    ensures !(u == d && online) ==> CarriesOver(s.fleet, SetOnline(s, now, u, online).state.fleet, d, now)
    ensures CarriesOver(s.fleet, SelectOperation(s, now, u, v).state.fleet, d, now)
    ensures CarriesOver(s.fleet, UpdateLocation(s, now, u, point).state.fleet, d, now)
  {
    hide Busy, CanGoOnline, ServesSomething, ReadOperatingState, ExpirePresence, CarriesOver, FindByUserID, WithOnline;
    var f := s.fleet;
    SameProfilesCarryOver(f, f, d, now);
    ExpiryCarriesOver(f, f.positions, now, u, d);
    var expired := ExpirePresence(f, now, Some(u), {});
    SameProfilesCarryOver(expired, expired.(selections := expired.selections[u := v]), d, now);
    CarriesOnward(f, expired, expired.(selections := expired.selections[u := v]), d, now);
    ExpiryCarriesOver(f, expired.positions[u := Position(point, now)], now, u, d);
    if u in f.profiles && !(u == d && online) {
      var g := WithOnline(f, u, online);
      GoingOfflineCarriesOver(f, u, online, d, now);
      ExpiryCarriesOver(g, g.positions, now, u, d);
      CarriesOnward(f, g, ExpirePresence(g, now, Some(u), {}), d, now);
    }
  }

  lemma CarriesOnward(f: Fleet, g: Fleet, h: Fleet, d: UserId, now: Time)
    requires CarriesOver(f, g, d, now) && CarriesOver(g, h, d, now)
    ensures CarriesOver(f, h, d, now)
  {
  }

  lemma GoingOfflineCarriesOver(f: Fleet, u: UserId, online: bool, d: UserId, now: Time)
    requires u in f.profiles && !(u == d && online)
    ensures CarriesOver(f, WithOnline(f, u, online), d, now)
  {
  }

  /** After the user's own lapse has been applied, a new position of that user revives nobody. */
  lemma ExpiryCarriesOver(f: Fleet, positions: map<UserId, Position>, now: Time, u: UserId, d: UserId)
    requires forall w | w != u :: (w in positions <==> w in f.positions) && (w in positions ==> positions[w] == f.positions[w])
    ensures CarriesOver(f, ExpirePresence(f, now, Some(u), {}).(positions := positions), d, now)
    ensures positions == f.positions ==> CarriesOver(f, ExpirePresence(f, now, Some(u), {}), d, now)
    ensures ExpirePresence(f, now, Some(u), {}).positions == f.positions
  {
  }

  lemma FleetEventsCarryOver(s: State, now: Time, e: Event, metric: Metric, d: UserId)
    requires e.ExpiresPresence? || e.Enrolls?
    ensures CarriesOver(s.fleet, Apply(s, now, e, metric).0.fleet, d, now)
  {
  }

  lemma SameProfilesCarryOver(f: Fleet, g: Fleet, d: UserId, now: Time)
    requires g.profiles == f.profiles && g.positions == f.positions
    ensures CarriesOver(f, g, d, now)
  {
  }

  lemma DriverEventsCarryOver(s: State, now: Time, e: Event, metric: Metric, d: UserId)
    requires DriverSide(e) && e != SetsOnline(d, true)
    ensures CarriesOver(s.fleet, Apply(s, now, e, metric).0.fleet, d, now)
  {
    hide CreateRide, Market, Submit, AcceptProposed, Upsert, Skip, Reject, SelectOffer, ListForRider,
         Discover, CancelByRider, CancelByDriver, Start, Complete, ConfirmCashCollected, ExpireStatement,
         SetOnline, SelectOperation, UpdateLocation, ExpirePresence, Enroll, CarriesOver;
    var g := Apply(s, now, e, metric).0.fleet;
    if e.SetsOnline? { ProfileEventsCarryOver(s, now, e.driver, e.online, 0, Point(0.0, 0.0), d); }
    else if e.ChoosesVehicle? { ProfileEventsCarryOver(s, now, e.driver, false, e.vehicle, Point(0.0, 0.0), d); }
    else if e.ReportsLocation? { ProfileEventsCarryOver(s, now, e.driver, false, 0, e.point, d); }
    else if e.ExpiresPresence? || e.Enrolls? { FleetEventsCarryOver(s, now, e, metric, d); }
    else { SameProfilesCarryOver(s.fleet, g, d, now); }
  }

  /** A refused request to go online writes nothing. */
  lemma RefusedOnlineWritesNothing(s: State, now: Time, d: UserId)
    ensures SetOnline(s, now, d, true).result.Err? ==> SetOnline(s, now, d, true).state == s
  {
    hide Busy, FreshPosition, ServesSomething;
    if CanGoOnline(s.fleet, d) { assert s.fleet.vehicles[s.fleet.selections[d]].owner == d; }
  }

  /** Any step other than a successful request leaves no one newly online, and revives nobody. */
  lemma StepCarriesOver(w: World, step: Step, d: UserId, metric: Metric)
    requires Enabled(w, step.at, step.event) && !GoesOnline(w, step, d, metric)
    ensures CarriesOver(w.state.fleet, Next(w, step.at, step.event, metric).state.fleet, d, step.at)
  {
    hide CreateRide, Market, Submit, AcceptProposed, Upsert, Skip, Reject, SelectOffer, ListForRider,
         Discover, CancelByRider, CancelByDriver, Start, Complete, ConfirmCashCollected, ExpireStatement,
         SetOnline, SelectOperation, UpdateLocation, ExpirePresence, Enroll, FreshPosition;
    if !DriverSide(step.event) { MarketKeepsFleet(w.state, step.at, step.event, metric); }
    else if step.event == SetsOnline(d, true) { RefusedOnlineWritesNothing(w.state, step.at, d); }
    else { DriverEventsCarryOver(w.state, step.at, step.event, metric, d); }
  }

  /** A position stored in the past and fresh now has been fresh since. */
  lemma FreshSince(s: State, clock: Time, d: UserId, now: Time)
    requires Inv(s, clock) && FreshPosition(s.fleet, d, now)
    ensures FreshThroughout(s.fleet, d, clock, now)
  {
    hide RidesOk, PairsOk, TripsOk, DriversOk, FleetOk;
  }

  // ---- Whole runs ----

  lemma {:induction false} LeaseUnlessOnline(w: World, run: seq<Step>, metric: Metric, d: UserId, now: Time)
    requires WorldInv(w) && Runnable(w, run, metric) && After(w, run, metric).clock <= now
    requires Online(After(w, run, metric).state.fleet, d) && FreshPosition(After(w, run, metric).state.fleet, d, now)
    ensures Leased(w, run, metric, d, now) || LeasedSinceOnline(w, run, metric, d, now)
    decreases |run|
  {
    hide Inv, WithinLimit, Quoted, Apply, FreshPosition, FreshThroughout, Online, GoesOnline, Enabled;
    if run == [] {
      FreshSince(w.state, w.clock, d, now);
    } else {
      var n := Next(w, run[0].at, run[0].event, metric);
      NextKeepsWorldInv(w, run[0].at, run[0].event, metric);
      LeaseUnlessOnline(n, run[1..], metric, d, now);
      if Leased(n, run[1..], metric, d, now) && !GoesOnline(w, run[0], d, metric) {
        StepCarriesOver(w, run[0], d, metric);
        FreshAtStart(n, if run[1..] == [] then now else run[1..][0].at, d) by {
          RunnableAdvances(n, run[1..], metric);
        }
        FreshSince(w.state, w.clock, d, run[0].at);
      }
    }
  }

  lemma RunnableAdvances(w: World, run: seq<Step>, metric: Metric)
    requires Runnable(w, run, metric)
    ensures run != [] ==> w.clock <= run[0].at
  {
    hide Apply;
  }

  lemma FreshAtStart(w: World, last: Time, d: UserId)
    requires w.clock <= last && FreshThroughout(w.state.fleet, d, w.clock, last)
    ensures FreshPosition(w.state.fleet, d, w.clock)
  {
  }

  /**
   * A driver who is eligible now, and was not online where the run began, went online in the run and has
   * had a stored position at most two minutes old at every instant since.
   */
  lemma EligibilityIsAContinuousLease(w: World, run: seq<Step>, metric: Metric, d: UserId, service: ServiceCode,
                                      now: Time)
    requires WorldInv(w) && Runnable(w, run, metric) && After(w, run, metric).clock <= now
    requires !Online(w.state.fleet, d)
    requires Eligible(After(w, run, metric).state, d, service, now)
    ensures LeasedSinceOnline(w, run, metric, d, now)
  {
    hide WorldInv, Apply, Runnable, Enabled, Equipped, Busy;
    LeaseUnlessOnline(w, run, metric, d, now);
  }

  /** Once a lease has lapsed, only a new successful request makes the driver available again. */
  lemma LapseIsFinal(w: World, run: seq<Step>, metric: Metric, d: UserId, now: Time)
    requires WorldInv(w) && Runnable(w, run, metric) && After(w, run, metric).clock <= now
    requires !(Online(w.state.fleet, d) && FreshPosition(w.state.fleet, d, w.clock))
    requires !LeasedSinceOnline(w, run, metric, d, now)
    ensures !Present(After(w, run, metric).state.fleet, d, now)
  {
    hide WorldInv, Apply, Enabled, GoesOnline, LeasedSinceOnline;
    if Present(After(w, run, metric).state.fleet, d, now) {
      LeaseUnlessOnline(w, run, metric, d, now);
      RunnableAdvances(w, run, metric);
      RunKeepsWorldInv(w, run, metric);
    }
  }
}
