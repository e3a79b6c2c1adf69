/** The read views agree with the write path, and error branches that no reachable state takes. */
module ReadPath {
  import opened Base
  import opened MarketState
  import opened Expiry
  import opened Fares
  import opened Transactions
  import opened Invariants
  import opened Preservation

  /** The list shows this driver's offer at this version, marked selectable. */
  ghost predicate ShownSelectable(list: Result<set<RiderOffer>>, d: UserId, version: Time) {
    list.Ok? && exists item | item in list.value :: item.driver == d && item.offer.updatedAt == version && item.selectable
  }

  /** The row-level condition both sides come down to. */
  predicate CanSelect(s: State, now: Time, k: Pair, rider: UserId, version: Time) {
    && RideLive(s, k.ride, now)
    && s.rides[k.ride].rider == rider
    && k in s.offers
    && s.offers[k].updatedAt == version
    && Selectable(s, now, k)
  }

  lemma ListShowsCanSelect(s: State, now: Time, k: Pair, rider: UserId, version: Time, metric: Metric)
    ensures ShownSelectable(ListForRider(s, now, k.ride, rider, metric), k.driver, version)
       <==> CanSelect(s, now, k, rider, version)
  {
    var list := ListForRider(s, now, k.ride, rider, metric);
    if CanSelect(s, now, k, rider, version) {
      assert RiderItem(s, now, k, metric) in list.value;
    }
    if ShownSelectable(list, k.driver, version) {
      var item :| item in list.value && item.driver == k.driver && item.offer.updatedAt == version && item.selectable;
      var j :| j in s.offers && j.ride == k.ride && Listed(s, now, j) && item == RiderItem(s, now, j, metric);
      assert j == k;
    }
  }

  /** Expiring first changes nothing about a row that could be selected. */
  lemma SettleKeepsSelectable(s: State, now: Time, k: Pair, rider: UserId, version: Time)
    ensures CanSelect(Settle(s, now), now, k, rider, version) <==> CanSelect(s, now, k, rider, version)
  {
    var x := Settle(s, now);
    assert RideLive(x, k.ride, now) <==> RideLive(s, k.ride, now);
    if RideLive(s, k.ride, now) {
      assert !RideClosing(s, k.ride, now);
    }
  }

  lemma SelectOfferIffCanSelect(s: State, now: Time, k: Pair, rider: UserId, version: Time)
    requires Inv(s, now)
    ensures SelectOffer(s, now, k, rider, version).result.Ok?
       <==> CanSelect(Settle(s, now), now, k, rider, version)
  {
    hide Settle, Inv;
    var x := Settle(s, now);
    SettleKeepsInv(s, now, now);
    if k in x.offers { NoOwnRideOffers(x, now, k); }
  }

  /** No driver ever holds an offer on their own ride, although only the write path of offers checks it. */
  lemma NoOwnRideOffers(s: State, now: Time, k: Pair)
    requires Inv(s, now) && k in s.offers
    ensures k in s.opportunities && k.ride in s.rides && k.driver != s.rides[k.ride].rider
  {
    hide TripsOk, RidesOk, DriversOk, FleetOk;
    assert OfferOk(s, k);
    assert OpportunityOk(s, k);
  }

  /** The rider can select exactly the offers that the comparison view marks selectable. */
  lemma SelectableIffSelectSucceeds(s: State, now: Time, k: Pair, rider: UserId, version: Time, metric: Metric)
    requires Inv(s, now)
    ensures SelectOffer(s, now, k, rider, version).result.Ok?
       <==> ShownSelectable(ListForRider(s, now, k.ride, rider, metric), k.driver, version)
  {
    hide *;
    SelectOfferIffCanSelect(s, now, k, rider, version);
    SettleKeepsSelectable(s, now, k, rider, version);
    ListShowsCanSelect(s, now, k, rider, version, metric);
  }
}
