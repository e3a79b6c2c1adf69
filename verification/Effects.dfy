/** What the transactions achieve for one another: responses are usable at once and final for ever. */
module Effects {
  import opened Base
  import opened MarketState
  import opened Expiry
  import opened Fares
  import opened Transactions
  import opened Invariants
  import opened Preservation
  import opened Evolution
  import opened ReadPath
  import opened Lifecycle
  import opened Runs
  import opened Histories

  // ---- Usable at once ----

  lemma OfferedCanSelect(x: State, now: Time, k: Pair, amount: int, minimum: int, maximum: int, currency: string)
    requires PolicyAllowed(x.policy) && Settle(x, now) == x
    ensures var o := Upsert(x, now, k, amount, minimum, maximum, currency);
            o.result.Ok? ==> k.ride in x.rides && CanSelect(o.state, now, k, x.rides[k.ride].rider, now)
  {
    hide Settle, Busy;
  }

  /** A successful offer is quoted on, and the rider can select it at the same instant at its own version. */
  lemma OfferIsSelectableAtOnce(s: State, now: Time, k: Pair, amount: int, minimum: int, maximum: int, currency: string,
                                metric: Metric)
    requires Inv(s, now) && BoundsOfRide(s, k.ride, minimum, maximum)
    requires Upsert(s, now, k, amount, minimum, maximum, currency).result.Ok?
    ensures Market(s, now, k.ride).Ok? && k.ride in s.rides
    ensures var y, rider := Upsert(s, now, k, amount, minimum, maximum, currency).state, s.rides[k.ride].rider;
            && ShownSelectable(ListForRider(y, now, k.ride, rider, metric), k.driver, now)
            && SelectOffer(y, now, k, rider, now).result.Ok?
  {
    hide Inv, Settle, BoundsOfRide, OfferDecision, PolicyAllowed, CanSelect, ListForRider, SelectOffer;
    var x := Settle(s, now);
    var y := Upsert(s, now, k, amount, minimum, maximum, currency).state;
    SettleIsIdempotent(s, now);
    Discovery.PolicyOf(s, now);
    SettleKeepsRiders(s, now, k.ride);
    assert Upsert(x, now, k, amount, minimum, maximum, currency).state == y;
    OfferedCanSelect(x, now, k, amount, minimum, maximum, currency);
    OfferedIsQuoted(s, now, k, amount, minimum, maximum, currency);
    UpsertKeepsInv(s, now, k, amount, minimum, maximum, currency);
    ListShowsCanSelect(y, now, k, s.rides[k.ride].rider, now, metric);
    SelectableIffSelectSucceeds(y, now, k, s.rides[k.ride].rider, now, metric);
  }

  lemma SettleKeepsRiders(s: State, now: Time, r: RideId)
    ensures Settle(s, now).policy == s.policy
    ensures r in Settle(s, now).rides <==> r in s.rides
    ensures r in s.rides ==> Settle(s, now).rides[r].rider == s.rides[r].rider
  {
  }

  lemma OfferedIsQuoted(s: State, now: Time, k: Pair, amount: int, minimum: int, maximum: int, currency: string)
    ensures Upsert(s, now, k, amount, minimum, maximum, currency).result.Ok? ==>
              Market(s, now, k.ride).Ok? && Market(s, now, k.ride).value.currency == currency
  {
    hide Eligible, SettledOffers, SettledOpportunities;
  }

  /** Going online makes the driver eligible for a service at that instant; going offline, for none. */
  lemma GoingOnlineMakesEligible(s: State, now: Time, d: UserId, online: bool)
    requires SetOnline(s, now, d, online).result.Ok?
    ensures var y := SetOnline(s, now, d, online).state;
            && (online ==> exists service: ServiceCode :: Eligible(y, d, service, now))
            && (!online ==> forall service: ServiceCode :: !Eligible(y, d, service, now))
  {
    hide Busy;
    var y := SetOnline(s, now, d, online).state;
    if online {
      var v := s.fleet.selections[d];
      var e :| e in s.fleet.enrollments && e.vehicle == v && e.service in s.fleet.catalog
        && s.fleet.catalog[e.service].active;
      assert e == Enrollment(v, e.service);
      assert Eligible(y, d, e.service, now);
    }
  }

  /** The operating state says the selection can change exactly when a change is not refused as locked. */
  lemma CanChangeIffNotLocked(s: State, now: Time, d: UserId, v: VehicleId)
    requires d in s.fleet.profiles
    ensures var p := s.(fleet := ExpirePresence(s.fleet, now, Some(d), {}));
            && ReadOperatingState(p, d).Ok?
            && (ReadOperatingState(p, d).value.canChange
                <==> SelectOperation(s, now, d, v).result != Err(SelectionLocked))
    ensures var o := SelectOperation(s, now, d, v);
            o.result.Ok? ==>
              o.result.value == OperatingState(Some((v, true)), true) && o.state.fleet.selections == s.fleet.selections[d := v]
  {
    hide Busy, ServesSomething;
    SelectedServes(s.fleet, now, d, v);
  }

  lemma SelectedServes(f: Fleet, now: Time, d: UserId, v: VehicleId)
    ensures var g := ExpirePresence(f, now, Some(d), {});
            ServesSomething(g.(selections := g.selections[d := v]), v) == ServesSomething(g, v)
  {
  }

  // ---- One decision closes the ride ----

  /** No pending offer and no open or offered opportunity is left on the ride, except for the pair. */
  predicate RideSettled(y: State, r: RideId, except: Option<UserId>) {
    && (forall k | k in y.offers && k.ride == r && Some(k.driver) != except :: !y.offers[k].status.Pending?)
    && (forall k | k in y.opportunities && k.ride == r && Some(k.driver) != except ::
          !y.opportunities[k].status.Open? && !y.opportunities[k].status.Offered?)
  }

  lemma ClosingSettles(offers: map<Pair, Offer>, opportunities: map<Pair, Opportunity>, r: RideId, except: Option<UserId>,
                       now: Time, y: State)
    requires y.offers == CloseRideOffers(offers, r, except, now)
    requires y.opportunities == CloseRideOpportunities(opportunities, r, except, now)
    ensures RideSettled(y, r, except)
  {
  }

  /** A selection leaves one accepted offer on the ride and nothing for anybody else to respond to. */
  lemma SelectionClosesTheRide(s: State, now: Time, k: Pair, rider: UserId, version: Time)
    requires SelectOffer(s, now, k, rider, version).result.Ok?
    ensures var y := SelectOffer(s, now, k, rider, version).state;
            && RideSettled(y, k.ride, Some(k.driver))
            && k in y.offers && y.offers[k].status.OfferAccepted? && y.offers[k].decidedAt == Some(now)
            && k in y.opportunities && y.opportunities[k].status.OpportunityAccepted?
            && k.ride in y.rides && y.rides[k.ride].status.RideAccepted?
            && k.ride in y.trips && y.trips[k.ride].driver == k.driver && y.trips[k.ride].assignedAt == now
            && y.trips[k.ride].status.Assigned?
  {
    hide Settle, RideSettled, CloseRideOffers, CloseRideOpportunities;
    SelectOfferWrites(s, now, k, rider, version);
    var x, y := Settle(s, now), SelectOffer(s, now, k, rider, version).state;
    var accepted := x.offers[k := DecideOffer(x.offers[k], OfferAccepted, now)];
    ClosingSettles(accepted, AcceptOpportunity(x.opportunities, k), k.ride, Some(k.driver), now, y);
    KeptPair(accepted, AcceptOpportunity(x.opportunities, k), k, now);
  }

  lemma KeptPair(offers: map<Pair, Offer>, opportunities: map<Pair, Opportunity>, k: Pair, now: Time)
    ensures k in offers ==>
      && k in CloseRideOffers(offers, k.ride, Some(k.driver), now)
      && CloseRideOffers(offers, k.ride, Some(k.driver), now)[k] == offers[k]
    ensures k in opportunities ==>
      && k in CloseRideOpportunities(opportunities, k.ride, Some(k.driver), now)
      && CloseRideOpportunities(opportunities, k.ride, Some(k.driver), now)[k] == opportunities[k]
  {
  }

  lemma CancelClosesTheRide(s: State, x: State, now: Time, r: RideId, actor: Actor)
    requires Inv(x, now) && Settled(x, now) && r in x.rides
    ensures var o := Cancel(s, x, now, r, actor, if r in x.trips then Some(x.trips[r]) else None);
            o.result.Ok? ==>
              && RideSettled(o.state, r, None)
              && r in o.state.rides && o.state.rides[r].status.RideCancelled?
              && (r in o.state.trips ==> o.state.trips[r].status.TripCancelled?)
              && o.state.rides[r].cancellation == Some(Cancellation(o.result.value.actor, o.result.value.at))
  {
    hide Inv, Settle, RideSettled, Settled, CloseRideOffers, CloseRideOpportunities;
    RideStatusFollowsTrip(x, now, r);
    var o := Cancel(s, x, now, r, actor, if r in x.trips then Some(x.trips[r]) else None);
    if x.rides[r].status.RideCancelled? { ClosedRideIsSettled(x, now, r); }
    else if o.result.Ok? { ClosingSettles(x.offers, x.opportunities, r, None, now, o.state); }
  }

  lemma ClosedRideIsSettled(x: State, now: Time, r: RideId)
    requires Settled(x, now) && RideClosed(x.rides, r)
    ensures RideSettled(x, r, None)
  {
  }

  /** After a cancellation by either party the ride, its trip and every response to it are closed, at the time replied. */
  lemma CancellationClosesTheRide(s: State, now: Time, r: RideId, u: UserId, byRider: bool)
    requires Inv(s, now)
    ensures var o := if byRider then CancelByRider(s, now, r, u) else CancelByDriver(s, now, r, u);
            o.result.Ok? ==>
              && RideSettled(o.state, r, None)
              && r in o.state.rides && o.state.rides[r].status.RideCancelled?
              && (r in o.state.trips ==> o.state.trips[r].status.TripCancelled?)
              && o.state.rides[r].cancellation == Some(Cancellation(o.result.value.actor, o.result.value.at))
  {
    hide Inv, Settle, Settled, Cancel, RideSettled;
    var x := Settle(s, now);
    SettleKeepsInv(s, now, now);
    SettleIsComplete(s, now);
    if r in x.rides {
      CancelClosesTheRide(s, x, now, r, RiderActor);
      CancelClosesTheRide(s, x, now, r, DriverActor);
    }
  }

  // ---- Final for ever ----

  /** A pair whose window is no longer open. */
  predicate Answered(s: State, k: Pair) {
    k in s.opportunities && !s.opportunities[k].status.Open?
  }

  lemma AnsweredRefuses(s: State, now: Time, k: Pair, amount: int, minimum: int, maximum: int, currency: string)
    requires Answered(s, k)
    ensures Upsert(s, now, k, amount, minimum, maximum, currency).result.Err?
    ensures Skip(s, now, k).result.Err?
  {
    hide RideLive, Eligible, SettledOffers, ExpireRides, ContextOf;
  }

  /**
   * Once a window has been answered, skipped or missed, the driver can never again offer on that ride or
   * skip it, in any continuation: a rejected driver has no second offer.
   */
  lemma ResponsesAreFinal(w: World, run: seq<Step>, metric: Metric, k: Pair, now: Time,
                          amount: int, minimum: int, maximum: int, currency: string)
    requires Runnable(w, run, metric) && Answered(w.state, k)
    ensures Upsert(After(w, run, metric).state, now, k, amount, minimum, maximum, currency).result.Err?
    ensures Skip(After(w, run, metric).state, now, k).result.Err?
  {
    hide Upsert, Skip, Runnable;
    var y := After(w, run, metric).state;
    RunEvolves(w, run, metric);
    assert OpportunityEvolves(w.state.opportunities[k], y.opportunities[k]);
    AnsweredRefuses(y, now, k, amount, minimum, maximum, currency);
  }

  lemma DecidedRefuses(s: State, now: Time, k: Pair, rider: UserId, version: Time)
    requires k in s.offers && !s.offers[k].status.Pending?
    ensures SelectOffer(s, now, k, rider, version).result.Err?
  {
    hide RideLive, Eligible, SettledOpportunities, ExpireRides;
  }

  /** An offer that has been decided or has expired can never be selected, in any continuation, at any version. */
  lemma DecisionsAreFinal(w: World, run: seq<Step>, metric: Metric, k: Pair, now: Time, rider: UserId, version: Time)
    requires Runnable(w, run, metric) && k in w.state.offers && !w.state.offers[k].status.Pending?
    ensures SelectOffer(After(w, run, metric).state, now, k, rider, version).result.Err?
  {
    hide SelectOffer, Runnable;
    var y := After(w, run, metric).state;
    RunEvolves(w, run, metric);
    assert OfferEvolves(w.state.offers[k], y.offers[k]);
    DecidedRefuses(y, now, k, rider, version);
  }

  /** Skipping and rejecting do answer and decide, with the label of their own party. */
  lemma RefusalsDecide(s: State, now: Time, k: Pair, rider: UserId)
    requires Inv(s, now)
    ensures var o := Skip(s, now, k);
            o.result.Ok? ==> Answered(o.state, k) && o.state.opportunities[k].status.DriverSkipped?
                             && o.state.opportunities[k].respondedAt == Some(now) && o.state.offers == Settle(s, now).offers
    ensures var o := Reject(s, now, k, rider);
            o.result.Ok? ==> Answered(o.state, k) && o.state.opportunities[k].status.RiderRejected?
                             && k in o.state.offers && o.state.offers[k].status.Rejected?
                             && o.state.offers[k] == o.result.value
  {
    hide Inv, Settle, RideLive;
    SettleKeepsInv(s, now, now);
    var x := Settle(s, now);
    if k in x.offers { RejectedPair(x, now, k); }
  }

  lemma RejectedPair(x: State, now: Time, k: Pair)
    requires Inv(x, now) && k in x.offers
    ensures x.offers[k].status.Rejected? ==> k in x.opportunities && x.opportunities[k].status.RiderRejected?
    ensures x.offers[k].status.Pending? && RideLive(x, k.ride, now) ==>
              k in x.opportunities && x.opportunities[k].status.Offered?
  {
    hide TripsOk, RidesOk, DriversOk, FleetOk;
    assert OfferOk(x, k);
    assert OpportunityOk(x, k);
  }

  // ---- Trip execution ----

  /** A trip starts iff it is assigned or under way, completes iff it was started, settles iff it was completed. */
  lemma ExecutionFollowsOrder(s: State, now: Time, r: RideId, d: UserId)
    requires Inv(s, now) && TripOf(s, r, d)
    ensures var o := Start(s, now, r, d);
            (o.result.Ok? <==> ActiveTrip(s.trips[r])) && (o.result.Ok? ==> o.state.trips[r].status.InProgress?)
    ensures var o := Complete(s, now, r, d);
            (o.result.Ok? <==> s.trips[r].status.InProgress? || s.trips[r].status.Completed?)
            && (o.result.Ok? ==> o.state.trips[r].status.Completed? && o.state.trips[r].completedAt.Some?)
    ensures var o := ConfirmCashCollected(s, now, r, d);
            (o.result.Ok? <==> s.trips[r].status.Completed?)
            && (o.result.Ok? ==> o.state.trips[r].settlement.collected
                                 && o.state.trips[r].settlement.confirmedBy == Some(d)
                                 && o.state.trips[r].settlement.means == Some("cash"))
  {
    hide Inv;
    TripRowAgrees(s, now, r);
  }
}
