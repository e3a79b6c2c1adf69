/** The driver feed: rank-then-limit opening, its cap, and that every item shown can be accepted. */
module Discovery {
  import opened Base
  import opened MarketState
  import opened Expiry
  import opened Fares
  import opened Transactions
  import opened Invariants
  import opened Preservation

  // ---- ORDER BY ... LIMIT ----

  lemma BeforeIsStrictTotalOrder(rides: map<RideId, Ride>, at: Point, metric: Metric, a: RideId, b: RideId, c: RideId)
    requires a in rides && b in rides && c in rides
    ensures !Before(rides, at, metric, a, a)
    ensures a != b ==> (Before(rides, at, metric, a, b) <==> !Before(rides, at, metric, b, a))
    ensures Before(rides, at, metric, a, b) && Before(rides, at, metric, b, c) ==> Before(rides, at, metric, a, c)
  {
  }

  lemma SubsetCardinality<T>(a: set<T>, b: set<T>)
    requires a <= b
    ensures |a| <= |b|
    ensures a != b ==> |a| < |b|
  {
    assert b == a + (b - a);
  }

  /** A row kept by the limit precedes every row dropped by it. */
  lemma TopPrecedesRest(candidates: set<RideId>, n: int, rides: map<RideId, Ride>, at: Point, metric: Metric,
                        a: RideId, b: RideId)
    requires candidates <= rides.Keys
    requires a in Top(candidates, n, rides, at, metric)
    requires b in candidates && b !in Top(candidates, n, rides, at, metric)
    ensures Before(rides, at, metric, a, b)
  {
    if !Before(rides, at, metric, a, b) {
      var before_b := Preceding(candidates, b, rides, at, metric);
      var before_a := Preceding(candidates, a, rides, at, metric);
      forall c | c in before_b ensures c in before_a {
        BeforeIsStrictTotalOrder(rides, at, metric, c, b, a);
        BeforeIsStrictTotalOrder(rides, at, metric, b, a, a);
      }
      SubsetCardinality(before_b, before_a);
    }
  }

  lemma HasLast(candidates: set<RideId>, rides: map<RideId, Ride>, at: Point, metric: Metric) returns (last: RideId)
    requires candidates <= rides.Keys && candidates != {}
    ensures last in candidates && Preceding(candidates, last, rides, at, metric) == candidates - {last}
    decreases |candidates|
  {
    var a :| a in candidates;
    var rest := candidates - {a};
    last := a;
    if rest != {} {
      var b := HasLast(rest, rides, at, metric);
      BeforeIsStrictTotalOrder(rides, at, metric, a, b, a);
      if Before(rides, at, metric, a, b) { last := b; }
      forall c | c in candidates && c != last ensures Before(rides, at, metric, c, last) {
        if c != a && c != b { assert c in Preceding(rest, b, rides, at, metric); }
        BeforeIsStrictTotalOrder(rides, at, metric, c, b, a);
      }
    }
    BeforeIsStrictTotalOrder(rides, at, metric, last, last, last);
  }

  /** Removing the last candidate changes nobody else's rank. */
  lemma RanksWithoutLast(candidates: set<RideId>, last: RideId, a: RideId, rides: map<RideId, Ride>, at: Point,
                         metric: Metric)
    requires candidates <= rides.Keys && last in candidates && a in candidates - {last}
    requires Preceding(candidates, last, rides, at, metric) == candidates - {last}
    ensures Preceding(candidates - {last}, a, rides, at, metric) == Preceding(candidates, a, rides, at, metric)
  {
    assert a in Preceding(candidates, last, rides, at, metric);
    BeforeIsStrictTotalOrder(rides, at, metric, a, last, a);
  }

  /** The limit keeps everything when it fits, and exactly n rows otherwise. */
  lemma {:induction false} TopSize(candidates: set<RideId>, n: int, rides: map<RideId, Ride>, at: Point, metric: Metric)
    requires candidates <= rides.Keys
    ensures |candidates| <= n ==> Top(candidates, n, rides, at, metric) == candidates
    ensures 0 <= n <= |candidates| ==> |Top(candidates, n, rides, at, metric)| == n
    ensures n < 0 ==> Top(candidates, n, rides, at, metric) == {}
    decreases |candidates|
  {
    if candidates != {} {
      var last := HasLast(candidates, rides, at, metric);
      var rest := candidates - {last};
      TopSize(rest, n, rides, at, metric);
      TopWithoutLast(candidates, last, n, rides, at, metric);
    }
  }

  lemma TopWithoutLast(candidates: set<RideId>, last: RideId, n: int, rides: map<RideId, Ride>, at: Point,
                       metric: Metric)
    requires candidates <= rides.Keys && last in candidates
    requires Preceding(candidates, last, rides, at, metric) == candidates - {last}
    ensures Top(candidates, n, rides, at, metric)
         == Top(candidates - {last}, n, rides, at, metric) + (if |candidates - {last}| < n then {last} else {})
  {
    hide Preceding;
    forall a | a in candidates - {last} { RanksWithoutLast(candidates, last, a, rides, at, metric); }
  }

  // ---- What a driver opens ----

  /** Each newly opened ride ranks before every openable ride left out. */
  lemma OpenedRankFirst(x: State, now: Time, d: UserId, limit: nat, metric: Metric, a: RideId, b: RideId)
    requires d in x.fleet.positions
    requires a in OpenedBy(x, now, d, limit, metric)
    requires b in Openable(x, now, d) && b !in OpenedBy(x, now, d, limit, metric)
    ensures Before(x.rides, x.fleet.positions[d].point, metric, a, b)
  {
    TopPrecedesRest(Openable(x, now, d), limit - |OpenWindows(x, now, d)|, x.rides, x.fleet.positions[d].point,
                    metric, a, b);
  }

  lemma PairsOfSize(chosen: set<RideId>, d: UserId)
    ensures |PairsOf(chosen, d)| == |chosen|
    decreases |chosen|
  {
    if chosen == {} {
      assert PairsOf(chosen, d) == {};
    } else {
      var r :| r in chosen;
      PairsOfSize(chosen - {r}, d);
      assert PairsOf(chosen, d) == PairsOf(chosen - {r}, d) + {Pair(r, d)};
    }
  }

  lemma WindowsAfterOpening(x: State, now: Time, d: UserId, chosen: set<RideId>)
    requires chosen <= Openable(x, now, d) && PolicyAllowed(x.policy)
    ensures var y := WithOpened(x, now, d, chosen);
            && OpenWindows(y, now, d) == OpenWindows(x, now, d) + PairsOf(chosen, d)
            && OpenWindows(x, now, d) !! PairsOf(chosen, d)
            && forall u | u != d :: OpenWindows(y, now, u) == OpenWindows(x, now, u)
  {
    hide RideLive, Eligible;
  }

  /** Opening never takes a driver past the limit, so the feed's own LIMIT drops nothing. */
  lemma OpeningStaysWithinLimit(x: State, now: Time, d: UserId, limit: nat, metric: Metric)
    requires Inv(x, now) && |OpenWindows(x, now, d)| <= limit
    ensures var y := WithOpened(x, now, d, OpenedBy(x, now, d, limit, metric));
            && |OpenWindows(y, now, d)| <= limit
            && Shown(y, now, d, limit, metric) == if d in y.fleet.positions then Feed(y, now, d) else {}
  {
    hide Openable, Feed, OpenWindows, Top, PairsOf, WithOpened;
    var chosen := OpenedBy(x, now, d, limit, metric);
    var y := WithOpened(x, now, d, chosen);
    OpenedByIsOpenable(x, now, d, limit, metric);
    assert PolicyAllowed(x.policy) by { PolicyOf(x, now); }
    OpenableAreRides(x, now, d);
    if d in x.fleet.positions {
      TopSize(Openable(x, now, d), limit - |OpenWindows(x, now, d)|, x.rides, x.fleet.positions[d].point, metric);
    }
    WindowsAfterOpening(x, now, d, chosen);
    PairsOfSize(chosen, d);
    assert |OpenWindows(y, now, d)| <= limit;
    FeedFits(y, now, d);
    if d in y.fleet.positions {
      TopSize(Feed(y, now, d), limit, y.rides, y.fleet.positions[d].point, metric);
    }
  }

  lemma OpenableAreRides(x: State, now: Time, d: UserId)
    ensures Openable(x, now, d) <= x.rides.Keys
  {
  }

  lemma PolicyOf(s: State, now: Time)
    requires Inv(s, now)
    ensures PolicyAllowed(s.policy)
  {
  }

  lemma FeedFits(y: State, now: Time, d: UserId)
    ensures |Feed(y, now, d)| <= |OpenWindows(y, now, d)|
    ensures Feed(y, now, d) <= y.rides.Keys
  {
    hide Equipped, Present, Busy;
    var feed := Feed(y, now, d);
    PairsOfSize(feed, d);
    assert PairsOf(feed, d) <= OpenWindows(y, now, d) by {
      forall k | k in PairsOf(feed, d) ensures k in OpenWindows(y, now, d) {
        assert k == Pair(k.ride, d);
      }
    }
    SubsetCardinality(PairsOf(feed, d), OpenWindows(y, now, d));
  }

  // ---- Whatever is shown can be accepted ----

  lemma OpeningStaysSettled(x: State, now: Time, d: UserId, chosen: set<RideId>)
    requires PolicyAllowed(x.policy) && Settled(x, now) && chosen <= Openable(x, now, d)
    ensures Settled(WithOpened(x, now, d, chosen), now)
  {
    hide Eligible;
    var y := WithOpened(x, now, d, chosen);
    forall k | k in y.opportunities
      ensures y.opportunities[k].status.Open? ==> y.opportunities[k].visibleUntil > now && !RideClosed(y.rides, k.ride)
    {
      if k in PairsOf(chosen, d) { assert RideLive(x, k.ride, now); }
    }
  }

  /** The checks that the feed does not repeat hold by invariant. */
  lemma FeedRowFacts(y: State, now: Time, d: UserId, r: RideId)
    requires Inv(y, now) && r in Feed(y, now, d)
    ensures var k := Pair(r, d);
            && RideLive(y, r, now) && d != y.rides[r].rider && Eligible(y, d, y.rides[r].service, now)
            && k in y.opportunities && y.opportunities[k].status.Open? && y.opportunities[k].visibleUntil > now
            && k !in y.offers
            && FareAllowed(y.rides[r].fare)
  {
    hide TripsOk, DriversOk, FleetOk;
    assert OpportunityOk(y, Pair(r, d));
    assert RideAgrees(y.rides[r], TripRowOf(y, r));
  }

  lemma ShownRowFacts(y: State, now: Time, d: UserId, limit: nat, metric: Metric)
    requires Inv(y, now)
    ensures forall r | r in Shown(y, now, d, limit, metric) ::
      && r in Feed(y, now, d) && r in y.rides && y.rides[r].fare.Some?
      && Pair(r, d) in y.opportunities && d in y.fleet.positions
  {
    hide Inv, Feed;
    forall r | r in Shown(y, now, d, limit, metric)
      ensures r in Feed(y, now, d) && r in y.rides && y.rides[r].fare.Some? && Pair(r, d) in y.opportunities
    {
      FeedFits(y, now, d);
      FeedRowFacts(y, now, d, r);
    }
  }

  lemma ProposedFareAcceptable(y: State, now: Time, d: UserId, r: RideId)
    requires Inv(y, now) && Settled(y, now) && r in Feed(y, now, d)
    ensures y.rides[r].fare.Some?
    ensures var q := Quote(r, y.rides[r].fare.value.amount, y.rides[r].fare.value.currency);
            && Market(y, now, r) == Ok(q)
            && AcceptProposed(y, now, q, d).result.Ok?
            && AcceptProposed(y, now, q, d).result.value.amount == q.amount
  {
    hide Inv, Settled, Feed, Settle, Eligible;
    FeedRowFacts(y, now, d, r);
    SettledIffFixed(y, now);
    BoundsMeanPercentages(y.rides[r].fare.value.amount, y.rides[r].fare.value.amount);
  }

  /** Every ride that Discover returns can be accepted at the same instant, at the fare it shows. */
  lemma DiscoveredRidesAcceptable(s: State, now: Time, d: UserId, limit: nat, metric: Metric, item: DiscoveryItem)
    requires Inv(s, now)
    requires Discover(s, now, d, limit, metric).result.Ok?
    requires item in Discover(s, now, d, limit, metric).result.value
    ensures var y := Discover(s, now, d, limit, metric).state;
            var q := Quote(item.ride, item.fare.amount, item.fare.currency);
            && Market(y, now, item.ride) == Ok(q)
            && AcceptProposed(y, now, q, d).result.Ok?
            && AcceptProposed(y, now, q, d).result.value.amount == item.fare.amount
  {
    hide Inv, Settled, Feed, Settle, Openable, OpenedBy, WithOpened, AcceptProposed, Market;
    var x := Settle(s, now);
    var chosen := OpenedBy(x, now, d, limit, metric);
    var y := WithOpened(x, now, d, chosen);
    SettleKeepsInv(s, now, now);
    SettleIsComplete(s, now);
    OpenedByIsOpenable(x, now, d, limit, metric);
    OpeningKeepsInv(x, now, d, chosen);
    PolicyOf(x, now);
    OpeningStaysSettled(x, now, d, chosen);
    ShownRowFacts(y, now, d, limit, metric);
    var r :| r in Shown(y, now, d, limit, metric) && item == Item(y, r, d, metric);
    ProposedFareAcceptable(y, now, d, r);
  }

  /** Discover never fails: a fare is always present on a ride it shows. */
  lemma DiscoverSucceeds(s: State, now: Time, d: UserId, limit: nat, metric: Metric)
    requires Inv(s, now)
    ensures Discover(s, now, d, limit, metric).result.Ok?
  {
    hide Inv, Settle, Openable, OpenedBy, WithOpened, Feed;
    var x := Settle(s, now);
    var chosen := OpenedBy(x, now, d, limit, metric);
    var y := WithOpened(x, now, d, chosen);
    SettleKeepsInv(s, now, now);
    OpenedByIsOpenable(x, now, d, limit, metric);
    OpeningKeepsInv(x, now, d, chosen);
    ShownRowFacts(y, now, d, limit, metric);
  }
}
