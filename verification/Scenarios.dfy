/** Two concrete runs from empty tables: one driver offers on two rides, and both rides are assigned at one instant. */
module Scenarios {
  import opened Base
  import opened MarketState
  import opened Expiry
  import opened Fares
  import opened Transactions
  import opened Discovery
  import opened Transparency
  import opened Runs
  import opened Histories

  /** The run leads from one world to the other. */
  ghost predicate Leads(w: World, run: seq<Step>, metric: Metric, v: World) {
    Runnable(w, run, metric) && After(w, run, metric) == v
  }

  lemma {:induction false} Extend(w: World, run: seq<Step>, metric: Metric, v: World, step: Step)
    requires Leads(w, run, metric, v) && Enabled(v, step.at, step.event)
    ensures Leads(w, run + [step], metric, Next(v, step.at, step.event, metric))
    decreases |run|
  {
    hide Enabled, Apply;
    var longer := run + [step];
    if run == [] {
      assert w == v && longer[0] == step && longer[1..] == [];
      assert Leads(Next(v, step.at, step.event, metric), longer[1..], metric, Next(v, step.at, step.event, metric));
    } else {
      Extend(Next(w, run[0].at, run[0].event, metric), run[1..], metric, v, step);
      assert longer[0] == run[0] && longer[1..] == run[1..] + [step];
    }
  }

  /** An event from one known state to another, without new quotes. */
  lemma OneStep(w: World, run: seq<Step>, metric: Metric, v: World, step: Step, y: State)
    requires Leads(w, run, metric, v) && Enabled(v, step.at, step.event)
    requires Apply(v.state, step.at, step.event, metric).0 == y && !step.event.AsksMarket?
    ensures Leads(w, run + [step], metric, World(y, step.at, v.quotes))
  {
    hide Leads, Apply, NewQuotes;
    Extend(w, run, metric, v, step);
    OnlyMarketQuotes(v.state, step, metric);
    assert v.quotes + {} == v.quotes;
  }

  lemma OnlyMarketQuotes(s: State, step: Step, metric: Metric)
    requires step.event.Sweeps? ==> step.event.statement < STATEMENTS
    requires !step.event.AsksMarket?
    ensures NewQuotes(Apply(s, step.at, step.event, metric).1) == {}
  {
    hide CreateRide, Market, Submit, AcceptProposed, Upsert, Skip, Reject, SelectOffer, ListForRider,
         Discover, CancelByRider, CancelByDriver, Start, Complete, ConfirmCashCollected, ExpireStatement,
         SetOnline, SelectOperation, UpdateLocation, ExpirePresence, Enroll;
  }

  // ---- One driver with an equipped vehicle goes online ----

  const ORIGIN := Point(0.0, 0.0)
  const DETAILS := VehicleDetails("Make", "Model", 2020, "White", "ABC-1")
  const NO_FLEET := Fleet(map[], map[], map[], {}, map[], {}, map[])
  const CATALOG := NO_FLEET.(catalog := map["go" := Service("Go", true, true)])
  const CAPABLE := CATALOG.(capable := {9})
  const ENROLLED := CAPABLE.(
    profiles := map[9 := Profile("D", Approved, false)], vehicles := map[3 := Vehicle(9, DETAILS, 0)],
    enrollments := {Enrollment(3, "go")})
  const LOCATED := ENROLLED.(positions := map[9 := Position(ORIGIN, 0)])
  const CHOSEN := LOCATED.(selections := map[9 := 3])
  const ONLINE := CHOSEN.(profiles := map[9 := Profile("D", Active, true)])

  function Policy(offerTtl: int): TimingPolicy {
    TimingPolicy(60, 30, offerTtl)
  }

  function Tables(f: Fleet, offerTtl: int): State {
    State(map[], map[], map[], map[], f, Policy(offerTtl))
  }

  const ARRIVAL: seq<Step> := [
    Step(0, ChangesCatalog(CATALOG.catalog)),
    Step(0, GainsCapability(9)),
    Step(0, Enrolls(9, "D", 3, DETAILS, "go")),
    Step(0, ReportsLocation(9, ORIGIN)),
    Step(0, ChoosesVehicle(9, 3)),
    Step(0, SetsOnline(9, true))]

  lemma Admitting(ttl: int, metric: Metric)
    ensures Apply(Tables(NO_FLEET, ttl), 0, ARRIVAL[0].event, metric).0 == Tables(CATALOG, ttl)
    ensures Apply(Tables(CATALOG, ttl), 0, ARRIVAL[1].event, metric).0 == Tables(CAPABLE, ttl)
  {
    hide Enroll, ExpirePresence, SetOnline, SelectOperation, UpdateLocation;
  }

  lemma Enrolling(ttl: int, metric: Metric)
    ensures Apply(Tables(CAPABLE, ttl), 0, ARRIVAL[2].event, metric).0 == Tables(ENROLLED, ttl)
  {
    hide ExpirePresence, SetOnline, SelectOperation, UpdateLocation;
  }

  lemma Locating(ttl: int, metric: Metric)
    ensures Apply(Tables(ENROLLED, ttl), 0, ARRIVAL[3].event, metric).0 == Tables(LOCATED, ttl)
  {
    assert ExpirePresence(ENROLLED, 0, Some(9), {}).profiles == ENROLLED.profiles;
  }

  lemma Choosing(ttl: int, metric: Metric)
    ensures Apply(Tables(LOCATED, ttl), 0, ARRIVAL[4].event, metric).0 == Tables(CHOSEN, ttl)
  {
    assert ExpirePresence(LOCATED, 0, Some(9), {}).profiles == LOCATED.profiles;
    assert Enrollment(3, "go") in LOCATED.enrollments;
  }

  lemma GoingOnline(ttl: int, metric: Metric)
    ensures Apply(Tables(CHOSEN, ttl), 0, ARRIVAL[5].event, metric).0 == Tables(ONLINE, ttl)
  {
    assert Enrollment(3, "go") in CHOSEN.enrollments;
    assert CanGoOnline(CHOSEN, 9);
    assert WithOnline(CHOSEN, 9, true).profiles == ONLINE.profiles;
    assert ExpirePresence(ONLINE, 0, Some(9), {}).profiles == ONLINE.profiles;
  }

  /** Three steps at once, for worlds without new quotes. */
  lemma ThreeSteps(w: World, run: seq<Step>, metric: Metric, a: World, s0: Step, b: State, s1: Step, c: State, s2: Step,
                   d: State)
    requires Leads(w, run, metric, a)
    requires !s0.event.AsksMarket? && !s1.event.AsksMarket? && !s2.event.AsksMarket?
    requires Enabled(a, s0.at, s0.event) && Apply(a.state, s0.at, s0.event, metric).0 == b
    requires Enabled(World(b, s0.at, a.quotes), s1.at, s1.event) && Apply(b, s1.at, s1.event, metric).0 == c
    requires Enabled(World(c, s1.at, a.quotes), s2.at, s2.event) && Apply(c, s2.at, s2.event, metric).0 == d
    ensures Leads(w, run + [s0, s1, s2], metric, World(d, s2.at, a.quotes))
  {
    hide Leads, Apply, Enabled;
    OneStep(w, run, metric, a, s0, b);
    OneStep(w, run + [s0], metric, World(b, s0.at, a.quotes), s1, c);
    OneStep(w, run + [s0] + [s1], metric, World(c, s1.at, a.quotes), s2, d);
    assert run + [s0] + [s1] + [s2] == run + [s0, s1, s2];
  }

  lemma NoStepLeads(w: World, metric: Metric)
    ensures Leads(w, [], metric, w)
  {
  }

  lemma DriverArrives(ttl: int, metric: Metric)
    ensures Leads(EmptyWorld(Policy(ttl), 0), ARRIVAL, metric, World(Tables(ONLINE, ttl), 0, {}))
  {
    hide Apply, Leads;
    var w := EmptyWorld(Policy(ttl), 0);
    assert w == World(Tables(NO_FLEET, ttl), 0, {});
    hide Tables, NO_FLEET, CATALOG, CAPABLE, ENROLLED, LOCATED, CHOSEN, ONLINE, EmptyWorld;
    Admitting(ttl, metric);
    Enrolling(ttl, metric);
    Locating(ttl, metric);
    Choosing(ttl, metric);
    GoingOnline(ttl, metric);
    NoStepLeads(w, metric);
    ThreeSteps(w, [], metric, w, ARRIVAL[0], Tables(CATALOG, ttl), ARRIVAL[1], Tables(CAPABLE, ttl),
               ARRIVAL[2], Tables(ENROLLED, ttl));
    assert [] + [ARRIVAL[0], ARRIVAL[1], ARRIVAL[2]] == ARRIVAL[..3];
    assert ARRIVAL[..3] + [ARRIVAL[3], ARRIVAL[4], ARRIVAL[5]] == ARRIVAL;
    ThreeSteps(w, ARRIVAL[..3], metric, World(Tables(ENROLLED, ttl), 0, {}), ARRIVAL[3], Tables(LOCATED, ttl),
               ARRIVAL[4], Tables(CHOSEN, ttl), ARRIVAL[5], Tables(ONLINE, ttl));
  }

  // ---- Two rides are created, shown to the driver, and offered on ----

  const FARE := Money(100, "PKR")
  const RIDE := Ride(7, "go", Some(FARE), ORIGIN, 0, 60 * SECOND, RideRequested, None)
  const WINDOW := Opportunity(Open, SECOND, 31 * SECOND, None)
  const ANSWERED := WINDOW.(status := Offered, respondedAt := Some(SECOND))
  const CONTEXT := OperationContext(3, "go", "Go", "D", DETAILS, FARE)
  const QUOTES := {Quote(1, 100, "PKR"), Quote(2, 100, "PKR")}

  function PendingOffer(ttl: int): Offer {
    Offer(100, "PKR", Pending, SECOND, SECOND, SECOND + ttl * SECOND, None, CONTEXT)
  }

  function Both<T>(one: T, two: T): map<Pair, T> {
    map[Pair(1, 9) := one, Pair(2, 9) := two]
  }

  function Created(ttl: int): State {
    Tables(ONLINE, ttl).(rides := map[1 := RIDE, 2 := RIDE])
  }

  function Windows(ttl: int): State {
    Created(ttl).(opportunities := Both(WINDOW, WINDOW))
  }

  function HalfOffered(ttl: int): State {
    Created(ttl).(opportunities := Both(ANSWERED, WINDOW), offers := map[Pair(1, 9) := PendingOffer(ttl)])
  }

  function BothOffered(ttl: int): State {
    Created(ttl).(opportunities := Both(ANSWERED, ANSWERED), offers := Both(PendingOffer(ttl), PendingOffer(ttl)))
  }

  const RESPONSES: seq<Step> := [
    Step(0, CreatesRide(1, 7, "go", Some(FARE), ORIGIN)),
    Step(0, CreatesRide(2, 7, "go", Some(FARE), ORIGIN)),
    Step(SECOND, Discovers(9)),
    Step(SECOND, AsksMarket(1)),
    Step(SECOND, AsksMarket(2)),
    Step(SECOND, AcceptsProposed(Quote(1, 100, "PKR"), 9)),
    Step(SECOND, AcceptsProposed(Quote(2, 100, "PKR"), 9))]

  lemma Creating(ttl: int, metric: Metric)
    ensures Apply(Tables(ONLINE, ttl), 0, RESPONSES[0].event, metric).0 == Tables(ONLINE, ttl).(rides := map[1 := RIDE])
    ensures Apply(Tables(ONLINE, ttl).(rides := map[1 := RIDE]), 0, RESPONSES[1].event, metric).0 == Created(ttl)
  {
    assert FareAllowed(Some(FARE));
    assert map[1 := RIDE][2 := RIDE] == map[1 := RIDE, 2 := RIDE];
  }

  /** Requested rides, open windows and pending offers before their deadlines are left alone by the sweep. */
  lemma NothingOverdue(s: State, now: Time)
    requires forall r | r in s.rides :: s.rides[r].status.RideRequested? && s.rides[r].expiresAt > now
    requires forall k | k in s.offers :: s.offers[k].status.Pending? && s.offers[k].expiresAt > now
    requires forall k | k in s.opportunities :: s.opportunities[k].visibleUntil > now
    ensures Settle(s, now) == s
  {
    hide Settle;
    SettledIffFixed(s, now);
  }

  lemma Opening(ttl: int, metric: Metric)
    ensures Discover(Created(ttl), SECOND, 9, DISCOVERY_LIMIT, metric).state == Windows(ttl)
  {
    hide Settle, Top, Shown, PairsOf, Openable, OpenWindows, Before, Created;
    var x := Created(ttl);
    assert x.fleet == ONLINE && x.policy == Policy(ttl) && x.rides == map[1 := RIDE, 2 := RIDE]
           && x.offers == map[] && x.opportunities == map[] by { CreatedTables(ttl); }
    NothingOverdue(x, SECOND);
    OpenableRides(ttl);
    OpenedBoth(x, metric);
    OpeningBoth(x, ttl);
    NoFareMissing(Windows(ttl), SECOND, metric);
  }

  lemma CreatedTables(ttl: int)
    ensures var x := Created(ttl);
            && x.fleet == ONLINE && x.policy == Policy(ttl) && x.rides == map[1 := RIDE, 2 := RIDE]
            && x.offers == map[] && x.opportunities == map[]
  {
  }

  lemma OpenedBoth(x: State, metric: Metric)
    requires x.fleet == ONLINE && x.opportunities == map[] && x.rides.Keys == {1, 2} && Openable(x, SECOND, 9) == {1, 2}
    ensures OpenedBy(x, SECOND, 9, DISCOVERY_LIMIT, metric) == {1, 2}
  {
    hide Openable, Top;
    assert OpenWindows(x, SECOND, 9) == {};
    TopSize({1, 2}, DISCOVERY_LIMIT, x.rides, ORIGIN, metric);
  }

  lemma OpeningBoth(x: State, ttl: int)
    requires x.opportunities == map[] && x.policy == Policy(ttl)
    ensures WithOpened(x, SECOND, 9, {1, 2}) == x.(opportunities := Both(WINDOW, WINDOW))
  {
    hide PairsOf;
    PairsOfBoth();
    assert WithOpened(x, SECOND, 9, {1, 2}).opportunities == Both(WINDOW, WINDOW);
  }

  lemma OpenableRides(ttl: int)
    ensures Openable(Created(ttl), SECOND, 9) == {1, 2}
  {
  }

  lemma PairsOfBoth()
    ensures PairsOf({1, 2}, 9) == {Pair(1, 9), Pair(2, 9)}
  {
    forall k ensures k in PairsOf({1, 2}, 9) <==> k in {Pair(1, 9), Pair(2, 9)} {
      assert k == Pair(k.ride, k.driver);
    }
  }

  lemma NoFareMissing(y: State, now: Time, metric: Metric)
    requires forall r | r in y.rides :: y.rides[r].fare.Some?
    ensures !exists r | r in Shown(y, now, 9, DISCOVERY_LIMIT, metric) :: y.rides[r].fare.None?
  {
    hide Feed;
    FeedFits(y, now, 9);
  }

  lemma Quoting(ttl: int, metric: Metric)
    ensures Market(Windows(ttl), SECOND, 1) == Ok(Quote(1, 100, "PKR"))
    ensures Market(Windows(ttl), SECOND, 2) == Ok(Quote(2, 100, "PKR"))
  {
  }

  lemma DriverFree(s: State)
    requires s.fleet == ONLINE && s.trips == map[]
    ensures Eligible(s, 9, "go", SECOND)
    ensures ContextOf(ONLINE, 9, "go", FARE) == CONTEXT
  {
  }

  /** The driver accepts the proposal on a ride whose window is open. */
  lemma Accepting(x: State, r: RideId, ttl: int)
    requires x.fleet == ONLINE && x.trips == map[] && x.policy == Policy(ttl) && Settle(x, SECOND) == x
    requires r in x.rides && x.rides[r] == RIDE
    requires Pair(r, 9) in x.opportunities && x.opportunities[Pair(r, 9)] == WINDOW && Pair(r, 9) !in x.offers
    ensures AcceptProposed(x, SECOND, Quote(r, 100, "PKR"), 9).state == x.(
              offers := x.offers[Pair(r, 9) := PendingOffer(ttl)],
              opportunities := x.opportunities[Pair(r, 9) := ANSWERED])
  {
    hide Settle, Eligible, ContextOf;
    DriverFree(x);
    BoundsMeanPercentages(100, 100);
  }

  lemma OfferingFirst(ttl: int)
    requires 5 <= ttl <= 60
    ensures AcceptProposed(Windows(ttl), SECOND, Quote(1, 100, "PKR"), 9).state == HalfOffered(ttl)
  {
    hide Settle, AcceptProposed;
    NothingOverdue(Windows(ttl), SECOND);
    Accepting(Windows(ttl), 1, ttl);
    hide PendingOffer;
    assert Both(WINDOW, WINDOW)[Pair(1, 9) := ANSWERED] == Both(ANSWERED, WINDOW);
  }

  lemma OfferingSecond(ttl: int)
    requires 5 <= ttl <= 60
    ensures AcceptProposed(HalfOffered(ttl), SECOND, Quote(2, 100, "PKR"), 9).state == BothOffered(ttl)
  {
    hide Settle, AcceptProposed;
    NothingOverdue(HalfOffered(ttl), SECOND);
    Accepting(HalfOffered(ttl), 2, ttl);
    hide PendingOffer;
    assert Both(ANSWERED, WINDOW)[Pair(2, 9) := ANSWERED] == Both(ANSWERED, ANSWERED);
    assert map[Pair(1, 9) := PendingOffer(ttl)][Pair(2, 9) := PendingOffer(ttl)] == Both(PendingOffer(ttl), PendingOffer(ttl));
  }

  /** What an event does is what its transaction does. */
  lemma Applies(s: State, now: Time, e: Event, metric: Metric)
    ensures e.Discovers? ==>
      Apply(s, now, e, metric).0 == Discover(s, now, e.driver, DISCOVERY_LIMIT, metric).state
    ensures e.AsksMarket? ==>
      Apply(s, now, e, metric) == (s, QuoteReply(Market(s, now, e.ride)))
    ensures e.AcceptsProposed? ==>
      Apply(s, now, e, metric).0 == AcceptProposed(s, now, e.quote, e.driver).state
    ensures e.Selects? ==>
      Apply(s, now, e, metric).0 == SelectOffer(s, now, e.pair, e.rider, e.version).state
    ensures e.StartsTrip? ==> Apply(s, now, e, metric).0 == Start(s, now, e.ride, e.driver).state
    ensures e.CompletesTrip? ==> Apply(s, now, e, metric).0 == Complete(s, now, e.ride, e.driver).state
    ensures e.Sweeps? && e.statement < STATEMENTS ==>
      Apply(s, now, e, metric).0 == ExpireStatement(s, e.statement, now)
  {
    hide CreateRide, Market, Submit, AcceptProposed, Upsert, Skip, Reject, SelectOffer, ListForRider,
         Discover, CancelByRider, CancelByDriver, Start, Complete, ConfirmCashCollected, ExpireStatement,
         SetOnline, SelectOperation, UpdateLocation, ExpirePresence, Enroll;
  }

  lemma Quotes(w: World, run: seq<Step>, metric: Metric, v: World, step: Step)
    requires Leads(w, run, metric, v) && Enabled(v, step.at, step.event) && step.event.AsksMarket?
    requires Market(v.state, step.at, step.event.ride).Ok?
    ensures Leads(w, run + [step], metric,
                  World(v.state, step.at, v.quotes + {Market(v.state, step.at, step.event.ride).value}))
  {
    hide Leads, Apply, Market;
    Extend(w, run, metric, v, step);
    Applies(v.state, step.at, step.event, metric);
  }

  const OFFERED_RUN := ARRIVAL + RESPONSES

  lemma WindowsOpen(ttl: int, metric: Metric)
    ensures Leads(EmptyWorld(Policy(ttl), 0), ARRIVAL + RESPONSES[..3], metric, World(Windows(ttl), SECOND, {}))
  {
    hide Apply, Leads, Windows, Created, EmptyWorld, Discover, Tables;
    var w := EmptyWorld(Policy(ttl), 0);
    DriverArrives(ttl, metric);
    Creating(ttl, metric);
    Opening(ttl, metric);
    Applies(Created(ttl), SECOND, RESPONSES[2].event, metric);
    ThreeSteps(w, ARRIVAL, metric, World(Tables(ONLINE, ttl), 0, {}),
               RESPONSES[0], Tables(ONLINE, ttl).(rides := map[1 := RIDE]), RESPONSES[1], Created(ttl),
               RESPONSES[2], Windows(ttl));
    assert RESPONSES[..3] == [RESPONSES[0], RESPONSES[1], RESPONSES[2]];
  }

  /** Both offers are pending one second into the run. */
  lemma DriverOffers(ttl: int, metric: Metric)
    requires 5 <= ttl <= 60
    ensures Leads(EmptyWorld(Policy(ttl), 0), OFFERED_RUN, metric, World(BothOffered(ttl), SECOND, QUOTES))
  {
    hide Apply, Leads, Windows, HalfOffered, BothOffered, EmptyWorld, AcceptProposed, Market, ARRIVAL;
    var w := EmptyWorld(Policy(ttl), 0);
    WindowsOpen(ttl, metric);
    Quoting(ttl, metric);
    OfferingFirst(ttl);
    OfferingSecond(ttl);
    var run := ARRIVAL + RESPONSES[..3];
    Quotes(w, run, metric, World(Windows(ttl), SECOND, {}), RESPONSES[3]);
    Quotes(w, run + [RESPONSES[3]], metric, World(Windows(ttl), SECOND, {} + {Quote(1, 100, "PKR")}), RESPONSES[4]);
    assert {} + {Quote(1, 100, "PKR")} + {Quote(2, 100, "PKR")} == QUOTES;
    Applies(Windows(ttl), SECOND, RESPONSES[5].event, metric);
    Applies(HalfOffered(ttl), SECOND, RESPONSES[6].event, metric);
    OneStep(w, run + [RESPONSES[3]] + [RESPONSES[4]], metric, World(Windows(ttl), SECOND, QUOTES), RESPONSES[5], HalfOffered(ttl));
    OneStep(w, run + [RESPONSES[3]] + [RESPONSES[4]] + [RESPONSES[5]], metric, World(HalfOffered(ttl), SECOND, QUOTES),
          RESPONSES[6], BothOffered(ttl));
    assert run + [RESPONSES[3]] + [RESPONSES[4]] + [RESPONSES[5]] + [RESPONSES[6]] == ARRIVAL + RESPONSES;
  }

  // ---- A later sweep rewrites a stored offer ----

  function Sweep(at: Time): seq<Step> {
    [Step(at, Sweeps(0)), Step(at, Sweeps(1)), Step(at, Sweeps(2)),
     Step(at, Sweeps(3)), Step(at, Sweeps(4)), Step(at, Sweeps(5))]
  }

  lemma SweepSettles(w: World, run: seq<Step>, metric: Metric, v: World, at: Time)
    requires Leads(w, run, metric, v) && v.clock <= at
    ensures Leads(w, run + Sweep(at), metric, World(Settle(v.state, at), at, v.quotes))
  {
    hide Leads, Apply, ExpireStatement, Settle;
    var s := v.state;
    assert ExpirePrefix(s, 0, at) == s;
    forall i, x: State | 0 <= i < STATEMENTS ensures Apply(x, at, Sweeps(i), metric).0 == ExpireStatement(x, i, at) {
      Applies(x, at, Sweeps(i), metric);
    }
    ThreeSteps(w, run, metric, v, Step(at, Sweeps(0)), ExpirePrefix(s, 1, at), Step(at, Sweeps(1)), ExpirePrefix(s, 2, at),
               Step(at, Sweeps(2)), ExpirePrefix(s, 3, at));
    ThreeSteps(w, run + [Step(at, Sweeps(0)), Step(at, Sweeps(1)), Step(at, Sweeps(2))], metric,
               World(ExpirePrefix(s, 3, at), at, v.quotes), Step(at, Sweeps(3)), ExpirePrefix(s, 4, at),
               Step(at, Sweeps(4)), ExpirePrefix(s, 5, at), Step(at, Sweeps(5)), ExpirePrefix(s, 6, at));
    SixStatementsSettle(s, at);
    assert run + [Step(at, Sweeps(0)), Step(at, Sweeps(1)), Step(at, Sweeps(2))]
           + [Step(at, Sweeps(3)), Step(at, Sweeps(4)), Step(at, Sweeps(5))] == run + Sweep(at);
  }

  /**
   * In this run a sweep rewrites the stored offer exactly from the offer's own deadline or the ride's, whichever
   * is earlier: with a short offer the ride is still open, with a long one the offer itself is not yet overdue.
   */
  lemma SweepRewritesStoredOffer(ttl: int, at: Time, metric: Metric)
    requires 5 <= ttl <= 60 && SECOND <= at
    ensures var w, k := EmptyWorld(Policy(ttl), 0), Pair(1, 9);
      && Runnable(w, OFFERED_RUN, metric) && Runnable(w, OFFERED_RUN + Sweep(at), metric)
      && (GetOffer(After(w, OFFERED_RUN + Sweep(at), metric).state, k) != GetOffer(After(w, OFFERED_RUN, metric).state, k)
          <==> at >= SECOND + ttl * SECOND || at >= 60 * SECOND)
  {
    hide Settle, Runnable, After, EmptyWorld, OFFERED_RUN, Sweep;
    DriverOffers(ttl, metric);
    SweepSettles(EmptyWorld(Policy(ttl), 0), OFFERED_RUN, metric, World(BothOffered(ttl), SECOND, QUOTES), at);
    StoredStatusChangesIff(BothOffered(ttl), at, Pair(1, 9));
  }

  // ---- Both rides are assigned at one instant ----

  const TRIP := NewTrip(7, 9, SECOND, CONTEXT)
  const STARTED := TRIP.(status := InProgress, startedAt := Some(SECOND))
  const DONE := STARTED.(status := Completed, completedAt := Some(SECOND))
  const TAKEN := RIDE.(status := RideAccepted)
  const WON := ANSWERED.(status := OpportunityAccepted)

  function AcceptedOffer(ttl: int): Offer {
    DecideOffer(PendingOffer(ttl), OfferAccepted, SECOND)
  }

  function SecondTaken(ttl: int, trip: Trip): State {
    Created(ttl).(rides := map[1 := RIDE, 2 := TAKEN], opportunities := Both(ANSWERED, WON),
                  offers := Both(PendingOffer(ttl), AcceptedOffer(ttl)), trips := map[2 := trip])
  }

  function BothTaken(ttl: int): State {
    Created(ttl).(rides := map[1 := TAKEN, 2 := TAKEN], opportunities := Both(WON, WON),
                  offers := Both(AcceptedOffer(ttl), AcceptedOffer(ttl)), trips := map[1 := TRIP, 2 := DONE])
  }

  const ASSIGNMENTS: seq<Step> := [
    Step(SECOND, Selects(Pair(2, 9), 7, SECOND)),
    Step(SECOND, StartsTrip(2, 9)),
    Step(SECOND, CompletesTrip(2, 9)),
    Step(SECOND, Selects(Pair(1, 9), 7, SECOND))]

  const TIED_RUN := OFFERED_RUN + ASSIGNMENTS

  /** The rider selects the driver's offer on a ride that nobody else has answered. */
  lemma Taking(x: State, r: RideId, ttl: int)
    requires 5 <= ttl <= 60 && x.fleet == ONLINE && Settle(x, SECOND) == x
    requires !Busy(x.trips, 9) && r in x.rides && x.rides[r] == RIDE && r !in x.trips
    requires Pair(r, 9) in x.offers && x.offers[Pair(r, 9)] == PendingOffer(ttl)
    requires Pair(r, 9) in x.opportunities && x.opportunities[Pair(r, 9)] == ANSWERED
    requires x.offers.Keys == x.opportunities.Keys == {Pair(1, 9), Pair(2, 9)}
    ensures SelectOffer(x, SECOND, Pair(r, 9), 7, SECOND).state == x.(
              rides := x.rides[r := TAKEN], trips := x.trips[r := TRIP],
              offers := x.offers[Pair(r, 9) := AcceptedOffer(ttl)],
              opportunities := x.opportunities[Pair(r, 9) := WON])
  {
    hide Settle, Eligible, Busy, CloseRideOffers, CloseRideOpportunities;
    DriverUnoccupied(x);
    OnlyPairOfRide(x.offers[Pair(r, 9) := AcceptedOffer(ttl)], x.opportunities[Pair(r, 9) := WON], r);
  }

  lemma DriverUnoccupied(x: State)
    requires x.fleet == ONLINE && !Busy(x.trips, 9)
    ensures Eligible(x, 9, "go", SECOND)
  {
    hide Busy;
  }

  lemma OnlyPairOfRide(offers: map<Pair, Offer>, opportunities: map<Pair, Opportunity>, r: RideId)
    requires offers.Keys == opportunities.Keys == {Pair(1, 9), Pair(2, 9)}
    ensures CloseRideOffers(offers, r, Some(9), SECOND) == offers
    ensures CloseRideOpportunities(opportunities, r, Some(9), SECOND) == opportunities
  {
  }

  lemma SecondSettled(ttl: int, trip: Trip)
    requires 5 <= ttl <= 60
    ensures Settle(SecondTaken(ttl, trip), SECOND) == SecondTaken(ttl, trip)
  {
    hide Settle;
    SettledIffFixed(SecondTaken(ttl, trip), SECOND);
  }

  lemma TakingSecond(ttl: int)
    requires 5 <= ttl <= 60
    ensures SelectOffer(BothOffered(ttl), SECOND, Pair(2, 9), 7, SECOND).state == SecondTaken(ttl, TRIP)
  {
    hide Settle, SelectOffer, PendingOffer, AcceptedOffer, TRIP;
    var x := BothOffered(ttl);
    NothingOverdue(x, SECOND) by { OfferDeadline(ttl); }
    Taking(x, 2, ttl);
    assert Both(PendingOffer(ttl), PendingOffer(ttl))[Pair(2, 9) := AcceptedOffer(ttl)]
        == Both(PendingOffer(ttl), AcceptedOffer(ttl));
    assert Both(ANSWERED, ANSWERED)[Pair(2, 9) := WON] == Both(ANSWERED, WON);
    assert map[1 := RIDE, 2 := RIDE][2 := TAKEN] == map[1 := RIDE, 2 := TAKEN];
    assert map[][2 := TRIP] == map[2 := TRIP];
  }

  lemma OfferDeadline(ttl: int)
    requires 5 <= ttl <= 60
    ensures PendingOffer(ttl).status.Pending? && PendingOffer(ttl).expiresAt > SECOND
  {
  }

  lemma Travelling(ttl: int)
    ensures Start(SecondTaken(ttl, TRIP), SECOND, 2, 9).state == SecondTaken(ttl, STARTED)
    ensures Complete(SecondTaken(ttl, STARTED), SECOND, 2, 9).state == SecondTaken(ttl, DONE)
  {
    hide Created, Both;
    assert map[2 := TRIP][2 := STARTED] == map[2 := STARTED] && map[2 := STARTED][2 := DONE] == map[2 := DONE];
  }

  lemma TakingFirst(ttl: int)
    requires 5 <= ttl <= 60
    ensures SelectOffer(SecondTaken(ttl, DONE), SECOND, Pair(1, 9), 7, SECOND).state == BothTaken(ttl)
  {
    hide Settle, SelectOffer, PendingOffer, AcceptedOffer;
    var x := SecondTaken(ttl, DONE);
    SecondSettled(ttl, DONE);
    Taking(x, 1, ttl);
    assert Both(PendingOffer(ttl), AcceptedOffer(ttl))[Pair(1, 9) := AcceptedOffer(ttl)]
        == Both(AcceptedOffer(ttl), AcceptedOffer(ttl));
    assert Both(ANSWERED, WON)[Pair(1, 9) := WON] == Both(WON, WON);
    assert map[1 := RIDE, 2 := TAKEN][1 := TAKEN] == map[1 := TAKEN, 2 := TAKEN];
    assert map[2 := DONE][1 := TRIP] == map[1 := TRIP, 2 := DONE];
  }

  lemma RidesTied(ttl: int, metric: Metric)
    requires 5 <= ttl <= 60
    ensures Leads(EmptyWorld(Policy(ttl), 0), TIED_RUN, metric, World(BothTaken(ttl), SECOND, QUOTES))
  {
    hide Apply, Leads, BothOffered, SecondTaken, BothTaken, EmptyWorld, SelectOffer, Start, Complete, OFFERED_RUN,
         TRIP, STARTED, DONE;
    var w := EmptyWorld(Policy(ttl), 0);
    DriverOffers(ttl, metric);
    TakingSecond(ttl);
    Travelling(ttl);
    TakingFirst(ttl);
    Applies(BothOffered(ttl), SECOND, ASSIGNMENTS[0].event, metric);
    Applies(SecondTaken(ttl, TRIP), SECOND, ASSIGNMENTS[1].event, metric);
    Applies(SecondTaken(ttl, STARTED), SECOND, ASSIGNMENTS[2].event, metric);
    Applies(SecondTaken(ttl, DONE), SECOND, ASSIGNMENTS[3].event, metric);
    ThreeSteps(w, OFFERED_RUN, metric, World(BothOffered(ttl), SECOND, QUOTES), ASSIGNMENTS[0], SecondTaken(ttl, TRIP),
               ASSIGNMENTS[1], SecondTaken(ttl, STARTED), ASSIGNMENTS[2], SecondTaken(ttl, DONE));
    OneStep(w, OFFERED_RUN + [ASSIGNMENTS[0], ASSIGNMENTS[1], ASSIGNMENTS[2]], metric,
          World(SecondTaken(ttl, DONE), SECOND, QUOTES), ASSIGNMENTS[3], BothTaken(ttl));
    assert OFFERED_RUN + [ASSIGNMENTS[0], ASSIGNMENTS[1], ASSIGNMENTS[2]] + [ASSIGNMENTS[3]] == OFFERED_RUN + ASSIGNMENTS;
  }
}
