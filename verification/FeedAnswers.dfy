/** What a driver's discovery opens, shows and leaves alone, over the columns stored before it. */
module FeedAnswers {
  import opened Base
  import opened MarketState
  import opened Expiry
  import opened Transactions
  import opened Invariants
  import opened Preservation
  import opened Discovery
  import opened Meanings

  /** Nearest pickup first, then the oldest request, then the smaller identifier. */
  predicate Ranks(rides: map<RideId, Ride>, at: Point, metric: Metric, a: RideId, b: RideId)
    requires a in rides && b in rides
  {
    var da, db := metric(at, rides[a].pickup), metric(at, rides[b].pickup);
    if da != db then da < db
    else if rides[a].createdAt != rides[b].createdAt then rides[a].createdAt < rides[b].createdAt
    else a < b
  }

  // ---- Opening ----

  /** An open ride of somebody else's that the driver has no row for and is ready to serve. */
  ghost predicate CanOpen(s: State, now: Time, d: UserId, r: RideId) {
    && OpenRide(s, r, now) && s.rides[r].rider != d && Pair(r, d) !in s.opportunities
    && DriverReady(s, d, s.rides[r].service, now)
  }

  ghost function Choice(s: State, now: Time, d: UserId): set<RideId> {
    set r | r in s.rides && CanOpen(s, now, d, r)
  }

  /** Windows of the driver that a sweep at `now` would leave open. */
  ghost function OpenNow(s: State, now: Time, d: UserId): set<Pair> {
    set k | k in s.opportunities && k.driver == d && OpenWindow(s, k, now) && !RideOver(s, k.ride, now)
  }

  ghost function Opened(s: State, y: State, d: UserId): set<RideId> {
    set r | r in s.rides && Pair(r, d) in y.opportunities && Pair(r, d) !in s.opportunities
  }

  lemma OpenableMeans(s: State, now: Time, d: UserId)
    ensures Openable(Settle(s, now), now, d) == Choice(s, now, d)
  {
    hide Settle, Eligible, DriverReady, RideLive, OpenRide;
    var x := Settle(s, now);
    SweptFrame(s, now);
    forall r | r in s.rides
      ensures RideLive(x, r, now) <==> OpenRide(s, r, now)
      ensures OpenRide(s, r, now) ==> x.rides[r] == s.rides[r]
      ensures OpenRide(s, r, now) ==>
        (Eligible(x, d, x.rides[r].service, now) <==> DriverReady(s, d, s.rides[r].service, now))
    {
      SweepKeepsOpenRide(s, now, Pair(r, d));
      EligibleMeans(x, d, s.rides[r].service, now);
      SweptDriver(s, now, d, s.rides[r].service);
    }
  }

  lemma OpenWindowsMean(s: State, now: Time, d: UserId)
    ensures OpenWindows(Settle(s, now), now, d) == OpenNow(s, now, d)
  {
    hide Settle, RideOver;
    SweptFrame(s, now);
    forall k | k in s.opportunities { SweptOpportunity(s, now, k); }
  }

  lemma OpenRideUnswept(s: State, now: Time, d: UserId, r: RideId)
    requires r in Choice(s, now, d)
    ensures r in s.rides && r in Settle(s, now).rides && Settle(s, now).rides[r] == s.rides[r]
  {
    hide Settle, DriverReady;
    SweepKeepsOpenRide(s, now, Pair(r, d));
  }

  /** The windows a discovery inserts: its own driver's, for rides of the choice, all alike. Deadlines apart, no row changes. */
  lemma DiscoverInserts(s: State, now: Time, d: UserId, limit: nat, metric: Metric)
    requires Inv(s, now)
    ensures var x, y := Settle(s, now), Discover(s, now, d, limit, metric).state;
      && y == x.(opportunities := y.opportunities)
      && (forall k | k in s.opportunities :: k in x.opportunities && k in y.opportunities && y.opportunities[k] == x.opportunities[k])
      && (forall k | k in y.opportunities && k !in s.opportunities ::
            && k.driver == d && CanOpen(s, now, d, k.ride)
            && y.opportunities[k] == Opportunity(Open, now, now + s.policy.opportunityTtl * 1_000_000, None))
      && Opened(s, y, d) == OpenedBy(x, now, d, limit, metric)
  {
    hide Inv, Settle, CanOpen, Openable, OpenedBy, Shown;
    var x := Settle(s, now);
    DiscoverSucceeds(s, now, d, limit, metric);
    SweptFrame(s, now);
    OpenableMeans(s, now, d);
    OpenedByIsOpenable(x, now, d, limit, metric);
    InsertsPairs(s, now, d, OpenedBy(x, now, d, limit, metric));
  }

  lemma InsertsPairs(s: State, now: Time, d: UserId, chosen: set<RideId>)
    requires chosen <= Choice(s, now, d)
    ensures var x, y := Settle(s, now), WithOpened(Settle(s, now), now, d, chosen);
      && (forall k | k in s.opportunities :: k in x.opportunities && k in y.opportunities && y.opportunities[k] == x.opportunities[k])
      && (forall k | k in y.opportunities && k !in s.opportunities ::
            && k.driver == d && k.ride in chosen
            && y.opportunities[k] == Opportunity(Open, now, now + s.policy.opportunityTtl * 1_000_000, None))
      && Opened(s, y, d) == chosen
  {
    hide Settle, OpenRide, DriverReady;
    SweptFrame(s, now);
  }

  /** As many as fit under the limit, and each of them ranks before every ride left out. */
  lemma DiscoverOpensTheBest(s: State, now: Time, d: UserId, limit: nat, metric: Metric)
    requires Inv(s, now)
    ensures var y, room := Discover(s, now, d, limit, metric).state, limit - |OpenNow(s, now, d)|;
      && |Opened(s, y, d)| == (if room < 0 then 0 else if |Choice(s, now, d)| <= room then |Choice(s, now, d)| else room)
      && forall a, b | a in Opened(s, y, d) && b in Choice(s, now, d) && b !in Opened(s, y, d) ::
           d in s.fleet.positions && Ranks(s.rides, s.fleet.positions[d].point, metric, a, b)
  {
    hide Inv, Settle, CanOpen, Openable, OpenWindows, OpenNow, Top, Discover;
    var x := Settle(s, now);
    var chosen := OpenedBy(x, now, d, limit, metric);
    DiscoverInserts(s, now, d, limit, metric);
    SweptFrame(s, now);
    OpenableMeans(s, now, d);
    OpenWindowsMean(s, now, d);
    OpenedByIsOpenable(x, now, d, limit, metric);
    if d in s.fleet.positions {
      TopSize(Choice(s, now, d), limit - |OpenNow(s, now, d)|, x.rides, x.fleet.positions[d].point, metric);
      forall a, b | a in chosen && b in Choice(s, now, d) && b !in chosen
        ensures Ranks(s.rides, s.fleet.positions[d].point, metric, a, b)
      {
        OpenedRankFirst(x, now, d, limit, metric, a, b);
        OpenRideUnswept(s, now, d, a);
        OpenRideUnswept(s, now, d, b);
      }
    } else { NothingToOpen(s, now, d); }
  }

  lemma NothingToOpen(s: State, now: Time, d: UserId)
    requires d !in s.fleet.positions
    ensures Choice(s, now, d) == {}
  {
    hide OpenRide;
  }

  // ---- The feed ----

  /** The driver has an open window on an open ride and is ready to serve it. */
  ghost predicate CanTake(y: State, now: Time, d: UserId, r: RideId) {
    OpenRide(y, r, now) && OpenWindow(y, Pair(r, d), now) && DriverReady(y, d, y.rides[r].service, now)
  }

  /** Every column of an item, read from the tables a discovery leaves. */
  predicate ShowsRide(y: State, d: UserId, item: DiscoveryItem, metric: Metric) {
    && item.ride in y.rides && Pair(item.ride, d) in y.opportunities && d in y.fleet.positions
    && item.rider == y.rides[item.ride].rider
    && item.pickup == y.rides[item.ride].pickup
    && y.rides[item.ride].fare == Some(item.fare)
    && item.createdAt == y.rides[item.ride].createdAt
    && item.rideExpiresAt == y.rides[item.ride].expiresAt
    && item.windowEndsAt == y.opportunities[Pair(item.ride, d)].visibleUntil
    && item.distance == metric(y.fleet.positions[d].point, y.rides[item.ride].pickup)
  }

  lemma FeedMeans(y: State, now: Time, d: UserId, r: RideId)
    requires Inv(y, now)
    ensures r in Feed(y, now, d) <==> CanTake(y, now, d, r)
  {
    hide Inv, Eligible, DriverReady;
    if r in Feed(y, now, d) {
      FeedRowFacts(y, now, d, r);
      EligibleMeans(y, d, y.rides[r].service, now);
    }
    if CanTake(y, now, d, r) {
      EligibleMeans(y, d, y.rides[r].service, now);
      EligibleInFeed(y, now, d, r);
    }
  }

  lemma EligibleInFeed(y: State, now: Time, d: UserId, r: RideId)
    requires OpenRide(y, r, now) && OpenWindow(y, Pair(r, d), now) && Eligible(y, d, y.rides[r].service, now)
    ensures r in Feed(y, now, d)
  {
  }

  /** Each item's columns are the rows' own, each ride has one item, and the rides are those the driver can now take. */
  lemma DiscoverShows(s: State, now: Time, d: UserId, limit: nat, metric: Metric)
    requires Inv(s, now)
    ensures var o := Discover(s, now, d, limit, metric);
      && o.result.Ok?
      && (forall item | item in o.result.value :: ShowsRide(o.state, d, item, metric) && CanTake(o.state, now, d, item.ride))
      && (forall a, b | a in o.result.value && b in o.result.value && a.ride == b.ride :: a == b)
  {
    hide Inv, Settle, OpenedBy, WithOpened, Shown, Feed, CanTake;
    var y := Discovered(s, now, d, limit, metric);
    forall item | item in Discover(s, now, d, limit, metric).result.value
      ensures ShowsRide(y, d, item, metric) && CanTake(y, now, d, item.ride) && item == Item(y, item.ride, d, metric)
    {
      var r :| r in Shown(y, now, d, limit, metric) && item == Item(y, r, d, metric);
      FeedMeans(y, now, d, r);
    }
  }

  /** The tables after a discovery, with what its reply is computed from. */
  lemma Discovered(s: State, now: Time, d: UserId, limit: nat, metric: Metric) returns (y: State)
    requires Inv(s, now)
    ensures Inv(y, now)
    ensures y == WithOpened(Settle(s, now), now, d, OpenedBy(Settle(s, now), now, d, limit, metric))
    ensures forall r | r in Shown(y, now, d, limit, metric) ::
      && r in Feed(y, now, d) && r in y.rides && y.rides[r].fare.Some?
      && Pair(r, d) in y.opportunities && d in y.fleet.positions
    ensures Discover(s, now, d, limit, metric)
         == Tx(y, Ok(set r | r in Shown(y, now, d, limit, metric) :: Item(y, r, d, metric)))
  {
    hide Inv, Settle, OpenedBy, WithOpened, Shown, Feed;
    y := WithOpened(Settle(s, now), now, d, OpenedBy(Settle(s, now), now, d, limit, metric));
    DiscoverSucceeds(s, now, d, limit, metric);
    DiscoverKeepsInv(s, now, d, limit, metric);
    ShownRowFacts(y, now, d, limit, metric);
  }

  /** While a driver has no more windows than the limit, every ride that the driver can take is shown. */
  lemma DiscoverShowsAll(s: State, now: Time, d: UserId, limit: nat, metric: Metric, r: RideId)
    requires Inv(s, now) && |OpenNow(s, now, d)| <= limit
    requires CanTake(Discover(s, now, d, limit, metric).state, now, d, r)
    ensures var o := Discover(s, now, d, limit, metric);
      o.result.Ok? && exists item | item in o.result.value :: item.ride == r
  {
    hide Inv, Settle, OpenedBy, WithOpened, Shown, Feed, OpenWindows, OpenNow, DriverReady;
    var y := Discovered(s, now, d, limit, metric);
    OpenWindowsMean(s, now, d);
    SettleKeepsInv(s, now, now);
    OpeningStaysWithinLimit(Settle(s, now), now, d, limit, metric);
    FeedMeans(y, now, d, r);
    ReadyIsPlaced(y, now, d, r);
    assert Item(y, r, d, metric) in Discover(s, now, d, limit, metric).result.value;
  }

  lemma ReadyIsPlaced(y: State, now: Time, d: UserId, r: RideId)
    requires CanTake(y, now, d, r)
    ensures d in y.fleet.positions
  {
  }
}
