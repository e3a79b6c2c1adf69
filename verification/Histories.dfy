/** Theorems over whole runs: the invariant, one-shot rows, and the transparency of sweeps. */
module Histories {
  import opened Base
  import opened MarketState
  import opened Expiry
  import opened Fares
  import opened Transactions
  import opened Invariants
  import opened Evolution
  import opened Transparency
  import opened TransparentOutcomes
  import opened Runs

  datatype Step = Step(at: Time, event: Event)

  predicate Runnable(w: World, run: seq<Step>, metric: Metric)
    decreases |run|
  {
    run == [] ||
    (Enabled(w, run[0].at, run[0].event) && Runnable(Next(w, run[0].at, run[0].event, metric), run[1..], metric))
  }

  function After(w: World, run: seq<Step>, metric: Metric): World
    requires Runnable(w, run, metric)
    decreases |run|
  {
    if run == [] then w else After(Next(w, run[0].at, run[0].event, metric), run[1..], metric)
  }

  /** What the callers saw, in order; a sweep has no caller. */
  function Replies(w: World, run: seq<Step>, metric: Metric): seq<Reply>
    requires Runnable(w, run, metric)
    decreases |run|
  {
    if run == [] then []
    else
      var rest := Replies(Next(w, run[0].at, run[0].event, metric), run[1..], metric);
      if run[0].event.Sweeps? then rest
      else [Apply(w.state, run[0].at, run[0].event, metric).1] + rest
  }

  lemma {:induction false} RunKeepsWorldInv(w: World, run: seq<Step>, metric: Metric)
    requires WorldInv(w) && Runnable(w, run, metric)
    ensures WorldInv(After(w, run, metric)) && w.clock <= After(w, run, metric).clock
    decreases |run|
  {
    hide WorldInv, Apply;
    if run != [] {
      NextKeepsWorldInv(w, run[0].at, run[0].event, metric);
      RunKeepsWorldInv(Next(w, run[0].at, run[0].event, metric), run[1..], metric);
    }
  }

  /** Every state reached from an empty database satisfies the invariant. */
  lemma ReachableWorldsAreValid(policy: TimingPolicy, clock: Time, run: seq<Step>, metric: Metric)
    requires PolicyAllowed(policy) && Runnable(EmptyWorld(policy, clock), run, metric)
    ensures WorldInv(After(EmptyWorld(policy, clock), run, metric))
  {
    hide WorldInv;
    EmptyWorldInv(policy, clock);
    RunKeepsWorldInv(EmptyWorld(policy, clock), run, metric);
  }

  lemma {:induction false} RunEvolves(w: World, run: seq<Step>, metric: Metric)
    requires Runnable(w, run, metric)
    ensures Evolves(w.state, After(w, run, metric).state)
    decreases |run|
  {
    hide Evolves, Apply;
    SameEvolves(w.state);
    if run != [] {
      var n := Next(w, run[0].at, run[0].event, metric);
      EventEvolves(w.state, run[0].at, run[0].event, metric);
      RunEvolves(n, run[1..], metric);
      EvolvesTransitive(w.state, n.state, After(w, run, metric).state);
    }
  }

  // ---- Each row is created once and changes at most as often as its rank allows ----

  datatype Row = RideRow(ride: RideId) | OpportunityRow(pair: Pair) | OfferRow(pair: Pair) | TripRow(ride: RideId)

  predicate Exists(s: State, row: Row) {
    match row
    case RideRow(r) => r in s.rides
    case OpportunityRow(k) => k in s.opportunities
    case OfferRow(k) => k in s.offers
    case TripRow(r) => r in s.trips
  }

  function Rank(s: State, row: Row): nat
    requires Exists(s, row)
  {
    match row
    case RideRow(r) => RideRank(s.rides[r].status)
    case OpportunityRow(k) => OpportunityRank(s.opportunities[k].status)
    case OfferRow(k) => OfferRank(s.offers[k].status)
    case TripRow(r) => TripRank(s.trips[r])
  }

  predicate Differs(s: State, y: State, row: Row)
    requires Exists(s, row) && Exists(y, row)
  {
    match row
    case RideRow(r) => y.rides[r] != s.rides[r]
    case OpportunityRow(k) => y.opportunities[k] != s.opportunities[k]
    case OfferRow(k) => y.offers[k] != s.offers[k]
    case TripRow(r) => y.trips[r] != s.trips[r]
  }

  function MaxRank(row: Row): nat {
    match row
    case RideRow(_) => 2
    case OpportunityRow(_) => 2
    case OfferRow(_) => 1
    case TripRow(_) => 3
  }

  /** How often a run inserts a row, and how often it changes any column of it. */
  function Inserts(w: World, run: seq<Step>, metric: Metric, row: Row): nat
    requires Runnable(w, run, metric)
    decreases |run|
  {
    if run == [] then 0
    else
      var n := Next(w, run[0].at, run[0].event, metric);
      (if !Exists(w.state, row) && Exists(n.state, row) then 1 else 0) + Inserts(n, run[1..], metric, row)
  }

  function Changes(w: World, run: seq<Step>, metric: Metric, row: Row): nat
    requires Runnable(w, run, metric)
    decreases |run|
  {
    if run == [] then 0
    else
      var n := Next(w, run[0].at, run[0].event, metric);
      (if Exists(w.state, row) && Exists(n.state, row) && Differs(w.state, n.state, row) then 1 else 0)
      + Changes(n, run[1..], metric, row)
  }

  lemma RowEvolves(s: State, y: State, row: Row)
    requires Evolves(s, y)
    ensures Exists(s, row) ==>
              && Exists(y, row) && Rank(y, row) <= Rank(s, row)
              && (Differs(s, y, row) ==> Rank(y, row) < Rank(s, row))
    ensures Exists(y, row) ==> Rank(y, row) <= MaxRank(row)
  {
    if Exists(s, row) {
      match row
      case RideRow(r) => assert RideEvolves(s.rides[r], y.rides[r]);
      case OpportunityRow(k) => assert OpportunityEvolves(s.opportunities[k], y.opportunities[k]);
      case OfferRow(k) => assert OfferEvolves(s.offers[k], y.offers[k]);
      case TripRow(r) => assert TripEvolves(s.trips[r], y.trips[r]);
    }
  }

  /** A row that exists is never inserted again, and each change of it uses up rank. */
  lemma {:induction false} ExistingRowHistory(w: World, run: seq<Step>, metric: Metric, row: Row)
    requires Runnable(w, run, metric) && Exists(w.state, row)
    ensures Exists(After(w, run, metric).state, row)
    ensures Inserts(w, run, metric, row) == 0
    ensures Changes(w, run, metric, row) + Rank(After(w, run, metric).state, row) <= Rank(w.state, row)
    decreases |run|
  {
    hide Evolves, Apply, Exists, Rank, Differs;
    if run != [] {
      var n := Next(w, run[0].at, run[0].event, metric);
      EventEvolves(w.state, run[0].at, run[0].event, metric);
      RowEvolves(w.state, n.state, row);
      ExistingRowHistory(n, run[1..], metric, row);
    }
  }

  /**
   * Over any run a pair is opened at most once, offered at most once, and each row changes at most
   * twice (ride, opportunity), once (offer) or three times (trip) after it is inserted.
   */
  lemma {:induction false} RowHistory(w: World, run: seq<Step>, metric: Metric, row: Row)
    requires Runnable(w, run, metric)
    ensures Inserts(w, run, metric, row) <= 1
    ensures Changes(w, run, metric, row) <= MaxRank(row)
    decreases |run|
  {
    hide Evolves, Apply, Exists, Rank, Differs, Enabled, MaxRank;
    SameEvolves(w.state);
    RowEvolves(w.state, w.state, row);
    if Exists(w.state, row) {
      ExistingRowHistory(w, run, metric, row);
    } else if run != [] {
      var n := Next(w, run[0].at, run[0].event, metric);
      SameEvolves(n.state);
      RowEvolves(n.state, n.state, row);
      if Exists(n.state, row) { ExistingRowHistory(n, run[1..], metric, row); }
      else { RowHistory(n, run[1..], metric, row); }
    }
  }

  /** A row of rank zero, one in a terminal status, stays exactly as it is. */
  lemma {:induction false} TerminalRowsNeverChange(w: World, run: seq<Step>, metric: Metric, row: Row)
    requires Runnable(w, run, metric) && Exists(w.state, row) && Rank(w.state, row) == 0
    ensures Exists(After(w, run, metric).state, row) && !Differs(w.state, After(w, run, metric).state, row)
  {
    hide Evolves, Apply;
    RunEvolves(w, run, metric);
    RowEvolves(w.state, After(w, run, metric).state, row);
  }

  // ---- Sweeps are transparent ----

  lemma EnvironmentTransparent(s: State, now: Time, e: Event, metric: Metric)
    requires e.ExpiresPresence? || e.Enrolls? || e.ChangesCatalog? || e.GainsCapability? || e.ChangesPolicy?
    ensures Apply(Live(s, now), now, e, metric).1 == Apply(s, now, e, metric).1
    ensures Live(Apply(Live(s, now), now, e, metric).0, now) == Live(Apply(s, now, e, metric).0, now)
  {
    hide Live, CreateRide, Market, Submit, AcceptProposed, Upsert, Skip, Reject, SelectOffer, ListForRider,
         Discover, CancelByRider, CancelByDriver, Start, Complete, ConfirmCashCollected, SetOnline, SelectOperation,
         UpdateLocation, ExpirePresence, Enroll, ExpireStatement;
    LiveFrame(s, now);
    match e
    case ExpiresPresence(only, skipped) => FleetPutTransparent(s, now, ExpirePresence(s.fleet, now, only, skipped));
    case Enrolls(d, name, v, details, service) =>
      FleetPutTransparent(s, now, Enroll(s.fleet, now, d, name, v, details, service));
    case ChangesCatalog(catalog) =>
      FleetPutTransparent(s, now, s.fleet.(catalog := catalog, capable := s.fleet.capable));
    case GainsCapability(u) =>
      FleetPutTransparent(s, now, s.fleet.(catalog := s.fleet.catalog, capable := s.fleet.capable + {u}));
    case ChangesPolicy(p) => PolicyPutTransparent(s, now, p);
  }

  lemma DriverEventTransparent(s: State, now: Time, e: Event, metric: Metric)
    requires DriverSide(e) && !e.AsksMarket? && !e.ListsOffers?
    ensures Apply(Live(s, now), now, e, metric).1 == Apply(s, now, e, metric).1
    ensures Live(Apply(Live(s, now), now, e, metric).0, now) == Live(Apply(s, now, e, metric).0, now)
  {
    hide Live, CreateRide, Market, Submit, AcceptProposed, Upsert, Skip, Reject, SelectOffer, ListForRider,
         Discover, CancelByRider, CancelByDriver, Start, Complete, ConfirmCashCollected, SetOnline, SelectOperation,
         UpdateLocation, ExpirePresence, Enroll, ExpireStatement;
    LiveFrame(s, now);
    match e
    case SetsOnline(d, online) => SetOnlineTransparent(s, now, d, online);
    case ChoosesVehicle(d, v) => SelectOperationTransparent(s, now, d, v);
    case ReportsLocation(d, point) => UpdateLocationTransparent(s, now, d, point);
    case _ => EnvironmentTransparent(s, now, e, metric);
  }

  lemma TripEventTransparent(s: State, now: Time, e: Event, metric: Metric)
    requires e.RiderCancels? || e.DriverCancels? || e.StartsTrip? || e.CompletesTrip? || e.ConfirmsCash?
    ensures Apply(Live(s, now), now, e, metric).1 == Apply(s, now, e, metric).1
    ensures Live(Apply(Live(s, now), now, e, metric).0, now) == Live(Apply(s, now, e, metric).0, now)
  {
    hide Live, CreateRide, Market, Submit, AcceptProposed, Upsert, Skip, Reject, SelectOffer, ListForRider,
         Discover, CancelByRider, CancelByDriver, Start, Complete, ConfirmCashCollected, SetOnline, SelectOperation,
         UpdateLocation, ExpirePresence, Enroll, ExpireStatement;
    match e
    case RiderCancels(r, rider) => CancelsTransparent(s, now, r, rider);
    case DriverCancels(r, d) => CancelsTransparent(s, now, r, d);
    case StartsTrip(r, d) => ExecutionTransparent(s, now, r, d);
    case CompletesTrip(r, d) => ExecutionTransparent(s, now, r, d);
    case ConfirmsCash(r, d) => ExecutionTransparent(s, now, r, d);
  }

  lemma EventTransparent(s: State, now: Time, e: Event, metric: Metric)
    requires Inv(s, now) && !e.Sweeps?
    ensures Apply(Live(s, now), now, e, metric).1 == Apply(s, now, e, metric).1
    ensures Live(Apply(Live(s, now), now, e, metric).0, now) == Live(Apply(s, now, e, metric).0, now)
  {
    hide Inv, Live, CreateRide, Market, Upsert, Skip, Reject, SelectOffer, ListForRider,
         Discover, CancelByRider, CancelByDriver, Start, Complete, ConfirmCashCollected, SetOnline, SelectOperation,
         UpdateLocation, ExpirePresence, Enroll, PolicyAllowed, ExpireStatement, Minimum, Maximum;
    assert PolicyAllowed(s.policy) by { Discovery.PolicyOf(s, now); }
    SettleOfLive(s, now);
    LiveFrame(s, now);
    match e
    case CreatesRide(r, rider, service, fare, pickup) => CreateRideTransparent(s, now, r, rider, service, fare, pickup);
    case AsksMarket(r) => MarketTransparent(s, now, r);
    case Submits(q, d, amount) =>
      UpsertTransparent(s, now, Pair(q.ride, d), amount, Minimum(q.amount), Maximum(q.amount), q.currency);
    case AcceptsProposed(q, d) =>
      UpsertTransparent(s, now, Pair(q.ride, d), q.amount, Minimum(q.amount), Maximum(q.amount), q.currency);
    case Skips(k) => SkipTransparent(s, now, k);
    case Rejects(k, rider) => RejectTransparent(s, now, k, rider);
    case Selects(k, rider, version) => SelectOfferTransparent(s, now, k, rider, version);
    case ListsOffers(r, rider) => ListTransparent(s, now, r, rider, metric);
    case Discovers(d) => DiscoverTransparent(s, now, d, DISCOVERY_LIMIT, metric);
    case RiderCancels(_, _) => TripEventTransparent(s, now, e, metric);
    case DriverCancels(_, _) => TripEventTransparent(s, now, e, metric);
    case StartsTrip(_, _) => TripEventTransparent(s, now, e, metric);
    case CompletesTrip(_, _) => TripEventTransparent(s, now, e, metric);
    case ConfirmsCash(_, _) => TripEventTransparent(s, now, e, metric);
    case _ => DriverEventTransparent(s, now, e, metric);
  }

  /** Worlds that differ only in which deadlines have been materialised. */
  ghost predicate Alike(w: World, v: World) {
    && v.clock <= w.clock
    && v.quotes == w.quotes
    && Live(v.state, w.clock) == Live(w.state, w.clock)
  }

  lemma AlikeLater(w: World, v: World, now: Time)
    requires Alike(w, v) && w.clock <= now
    ensures Live(v.state, now) == Live(w.state, now)
  {
    hide Live;
    LiveLater(v.state, w.clock, now);
    LiveLater(w.state, w.clock, now);
  }

  /** The same event in two such worlds gets the same reply and keeps them alike. */
  lemma SameEventAlike(w: World, v: World, now: Time, e: Event, metric: Metric)
    requires WorldInv(w) && WorldInv(v) && Alike(w, v) && Enabled(w, now, e) && !e.Sweeps?
    ensures Enabled(v, now, e)
    ensures Apply(v.state, now, e, metric).1 == Apply(w.state, now, e, metric).1
    ensures Alike(Next(w, now, e, metric), Next(v, now, e, metric))
  {
    hide Inv, Live, Apply, WithinLimit, PolicyAllowed;
    InvLater(w.state, w.clock, now);
    InvLater(v.state, v.clock, now);
    AlikeLater(w, v, now);
    EventTransparent(w.state, now, e, metric);
    EventTransparent(v.state, now, e, metric);
  }

  lemma SweepAlike(w: World, v: World, now: Time, i: nat, metric: Metric)
    requires Alike(w, v) && Enabled(w, now, Sweeps(i))
    ensures Alike(Next(w, now, Sweeps(i), metric), v)
  {
    hide Live, ExpireStatement;
    AlikeLater(w, v, now);
    StatementIsTransparent(w.state, i, now, now);
  }

  function WithoutSweeps(run: seq<Step>): seq<Step> {
    if run == [] then []
    else if run[0].event.Sweeps? then WithoutSweeps(run[1..])
    else [run[0]] + WithoutSweeps(run[1..])
  }

  lemma RunCons(step: Step, rest: seq<Step>, w: World, metric: Metric)
    requires Enabled(w, step.at, step.event) && Runnable(Next(w, step.at, step.event, metric), rest, metric)
    ensures Runnable(w, [step] + rest, metric)
    ensures After(w, [step] + rest, metric) == After(Next(w, step.at, step.event, metric), rest, metric)
    ensures !step.event.Sweeps? ==>
      Replies(w, [step] + rest, metric)
      == [Apply(w.state, step.at, step.event, metric).1] + Replies(Next(w, step.at, step.event, metric), rest, metric)
  {
    hide Apply, Enabled;
    assert ([step] + rest)[1..] == rest;
  }

  /**
   * Deleting every sweep from a run, in one of two alike worlds, changes no reply and nothing that the
   * final state means.
   */
  lemma {:induction false} AlikeRuns(w: World, v: World, run: seq<Step>, metric: Metric)
    requires WorldInv(w) && WorldInv(v) && Alike(w, v) && Runnable(w, run, metric)
    ensures Runnable(v, WithoutSweeps(run), metric)
    ensures Replies(v, WithoutSweeps(run), metric) == Replies(w, run, metric)
    ensures Alike(After(w, run, metric), After(v, WithoutSweeps(run), metric))
    decreases |run|
  {
    hide WorldInv, Alike, Apply, Enabled;
    if run != [] {
      var at, e := run[0].at, run[0].event;
      var n := Next(w, at, e, metric);
      NextKeepsWorldInv(w, at, e, metric);
      if e.Sweeps? {
        SweepAlike(w, v, at, e.statement, metric);
        AlikeRuns(n, v, run[1..], metric);
      } else {
        SameEventAlike(w, v, at, e, metric);
        NextKeepsWorldInv(v, at, e, metric);
        AlikeRuns(n, Next(v, at, e, metric), run[1..], metric);
        RunCons(run[0], WithoutSweeps(run[1..]), v, metric);
      }
    }
  }

  /** In every reachable world, sweep statements, however interleaved, are invisible. */
  lemma SweepsAreTransparent(w: World, run: seq<Step>, metric: Metric)
    requires WorldInv(w) && Runnable(w, run, metric)
    ensures Runnable(w, WithoutSweeps(run), metric)
    ensures Replies(w, WithoutSweeps(run), metric) == Replies(w, run, metric)
    ensures var swept, lazy := After(w, run, metric), After(w, WithoutSweeps(run), metric);
            && lazy.quotes == swept.quotes
            && forall now | swept.clock <= now :: Live(lazy.state, now) == Live(swept.state, now)
  {
    hide WorldInv, Live, Apply;
    AlikeRuns(w, w, run, metric);
    var swept, lazy := After(w, run, metric), After(w, WithoutSweeps(run), metric);
    forall now | swept.clock <= now ensures Live(lazy.state, now) == Live(swept.state, now) {
      AlikeLater(swept, lazy, now);
    }
  }

  /**
   * A read of an offer's stored row is changed by a sweep exactly when the row is pending and overdue, or pending
   * on a ride that is closed or overdue. What the state means never changes.
   */
  lemma StoredStatusChangesIff(s: State, now: Time, k: Pair)
    ensures GetOffer(Settle(s, now), k) != GetOffer(s, k)
       <==> k in s.offers && s.offers[k].status.Pending? && (s.offers[k].expiresAt <= now || RideClosing(s, k.ride, now))
    ensures Live(Settle(s, now), now) == Live(s, now)
  {
    hide Live;
    SettleOfLive(s, now);
  }

  /** Statement by statement: only the first and the fifth rewrite offers, each on its own condition. */
  lemma StoredStatusChangesByStatementIff(s: State, i: nat, now: Time, k: Pair)
    requires i < STATEMENTS
    ensures GetOffer(ExpireStatement(s, i, now), k) != GetOffer(s, k)
       <==> k in s.offers && s.offers[k].status.Pending?
            && ((i == 0 && s.offers[k].expiresAt <= now) || (i == 4 && RideClosed(s.rides, k.ride)))
  {
  }
}
