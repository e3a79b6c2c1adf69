/** Sweeps are transparent: when and whether deadlines are materialised changes no reply. */
module Transparency {
  import opened Base
  import opened MarketState
  import opened Expiry
  import opened Fares
  import opened Transactions
  import opened Invariants
  import opened Preservation

  // ---- A state with its deadlines applied and its dead rows made anonymous ----

  /** Which label a dead offer carries, and when it died, is bookkeeping. */
  function ErasedOffer(o: Offer): Offer {
    if o.status.Expired? || o.status.OfferClosed?
    then o.(status := OfferClosed, updatedAt := o.createdAt, decidedAt := None) else o
  }

  function ErasedOpportunity(o: Opportunity): Opportunity {
    if o.status.WindowExpired? || o.status.OfferExpired? || o.status.OpportunityClosed?
    then o.(status := OpportunityClosed, respondedAt := None) else o
  }

  function ErasedOffers(offers: map<Pair, Offer>): map<Pair, Offer> {
    map k | k in offers :: ErasedOffer(offers[k])
  }

  function ErasedOpportunities(opportunities: map<Pair, Opportunity>): map<Pair, Opportunity> {
    map k | k in opportunities :: ErasedOpportunity(opportunities[k])
  }

  function Erase(s: State): State {
    s.(offers := ErasedOffers(s.offers), opportunities := ErasedOpportunities(s.opportunities))
  }

  /** What a state means at an instant. */
  function Live(s: State, now: Time): State {
    Erase(Settle(s, now))
  }

  lemma EraseStaysSettled(x: State, now: Time)
    requires Settled(x, now)
    ensures Settled(Erase(x), now)
  {
  }

  lemma EraseTwice(x: State)
    ensures Erase(Erase(x)) == Erase(x)
  {
    assert ErasedOffers(ErasedOffers(x.offers)) == ErasedOffers(x.offers);
    assert ErasedOpportunities(ErasedOpportunities(x.opportunities)) == ErasedOpportunities(x.opportunities);
  }

  lemma LiveOfSettled(x: State, now: Time)
    requires Settled(x, now)
    ensures Settle(x, now) == x && Live(x, now) == Erase(x)
    ensures Settle(Erase(x), now) == Erase(x) && Live(Erase(x), now) == Erase(x)
  {
    hide Settled, Settle, Erase;
    EraseStaysSettled(x, now);
    SettledIffFixed(x, now);
    SettledIffFixed(Erase(x), now);
    EraseTwice(x);
  }

  lemma SettleOfLive(s: State, now: Time)
    ensures Settle(Live(s, now), now) == Live(s, now)
    ensures Live(Live(s, now), now) == Live(s, now)
    ensures Live(Settle(s, now), now) == Live(s, now)
  {
    hide Settled, Settle, Erase;
    SettleIsComplete(s, now);
    LiveOfSettled(Settle(s, now), now);
  }

  // ---- The meaning of a state, row by row ----

  function LiveRide(s: State, r: RideId, now: Time): Ride
    requires r in s.rides
  {
    SettledRide(s.rides[r], r in s.trips, now)
  }

  function LiveOffer(s: State, k: Pair, now: Time): Offer
    requires k in s.offers
  {
    ErasedOffer(SettledOffer(s.offers[k], RideClosing(s, k.ride, now), now))
  }

  function LiveOpportunity(s: State, k: Pair, now: Time): Opportunity
    requires k in s.opportunities
  {
    ErasedOpportunity(
      SettledOpportunity(s.opportunities[k], OfferLapsed(s.offers, k, now), RideClosing(s, k.ride, now), now))
  }

  lemma LiveRows(s: State, now: Time)
    ensures var y := Live(s, now);
            && y.trips == s.trips && y.fleet == s.fleet && y.policy == s.policy
            && y.rides.Keys == s.rides.Keys && (forall r | r in s.rides :: y.rides[r] == LiveRide(s, r, now))
            && y.offers.Keys == s.offers.Keys && (forall k | k in s.offers :: y.offers[k] == LiveOffer(s, k, now))
            && y.opportunities.Keys == s.opportunities.Keys
            && (forall k | k in s.opportunities :: y.opportunities[k] == LiveOpportunity(s, k, now))
  {
    hide RideClosing, OfferLapsed, ErasedOffer, ErasedOpportunity, SettledOffer, SettledOpportunity, SettledRide;
  }

  /** Two states mean the same when all their rows do. */
  lemma SameRowsSameMeaning(s: State, y: State, now: Time)
    requires y.trips == s.trips && y.fleet == s.fleet && y.policy == s.policy
    requires y.rides.Keys == s.rides.Keys && y.offers.Keys == s.offers.Keys
    requires y.opportunities.Keys == s.opportunities.Keys
    requires forall r | r in s.rides :: LiveRide(y, r, now) == LiveRide(s, r, now)
    requires forall k | k in s.offers :: LiveOffer(y, k, now) == LiveOffer(s, k, now)
    requires forall k | k in s.opportunities :: LiveOpportunity(y, k, now) == LiveOpportunity(s, k, now)
    ensures Live(y, now) == Live(s, now)
  {
    hide Live, LiveRide, LiveOffer, LiveOpportunity;
    LiveRows(s, now);
    LiveRows(y, now);
    assert Live(y, now).rides == Live(s, now).rides;
    assert Live(y, now).offers == Live(s, now).offers;
    assert Live(y, now).opportunities == Live(s, now).opportunities;
  }

  // ---- Deadlines only move one way ----

  lemma LaterClosing(s: State, now: Time, later: Time, r: RideId)
    requires now <= later
    ensures RideClosing(Live(s, now), r, later) == RideClosing(s, r, later)
    ensures RideClosing(s, r, now) ==> RideClosing(s, r, later)
    ensures r in s.rides ==> r in Live(s, now).rides && LiveRide(Live(s, now), r, later) == LiveRide(s, r, later)
  {
  }

  lemma LaterOffer(s: State, now: Time, later: Time, k: Pair)
    requires now <= later && k in s.offers
    ensures k in Live(s, now).offers && LiveOffer(Live(s, now), k, later) == LiveOffer(s, k, later)
  {
    LaterClosing(s, now, later, k.ride);
  }

  lemma LaterOpportunity(s: State, now: Time, later: Time, k: Pair)
    requires now <= later && k in s.opportunities
    ensures k in Live(s, now).opportunities
    ensures LiveOpportunity(Live(s, now), k, later) == LiveOpportunity(s, k, later)
  {
    LaterClosing(s, now, later, k.ride);
  }

  /** Looking at an earlier meaning later is the same as looking at the state later. */
  lemma LiveLater(s: State, now: Time, later: Time)
    requires now <= later
    ensures Live(Live(s, now), later) == Live(s, later)
  {
    hide Live, LiveRide, LiveOffer, LiveOpportunity;
    LiveRows(s, now);
    forall r | r in s.rides { LaterClosing(s, now, later, r); }
    forall k | k in s.offers { LaterOffer(s, now, later, k); }
    forall k | k in s.opportunities { LaterOpportunity(s, now, later, k); }
    SameRowsSameMeaning(s, Live(s, now), later);
  }

  // ---- A statement of the sweep, at any earlier instant, leaves the meaning alone ----

  lemma OfferStatementMeaning(s: State, i: nat, at: Time, now: Time, k: Pair)
    requires at <= now && (i == 0 || i == 4) && k in s.offers
    ensures var y := ExpireStatement(s, i, at);
            k in y.offers && LiveOffer(y, k, now) == LiveOffer(s, k, now)
  {
  }

  lemma OfferStatementWindow(s: State, i: nat, at: Time, now: Time, k: Pair)
    requires at <= now && (i == 0 || i == 4) && k in s.opportunities
    ensures LiveOpportunity(ExpireStatement(s, i, at), k, now) == LiveOpportunity(s, k, now)
  {
  }

  lemma OpportunityStatementMeaning(s: State, i: nat, at: Time, now: Time, k: Pair)
    requires at <= now && (i == 1 || i == 2 || i == 5) && k in s.opportunities
    ensures var y := ExpireStatement(s, i, at);
            k in y.opportunities && LiveOpportunity(y, k, now) == LiveOpportunity(s, k, now)
  {
  }

  lemma RideStatementMeaning(s: State, at: Time, now: Time, r: RideId)
    requires at <= now
    ensures var y := ExpireStatement(s, 3, at);
            && RideClosing(y, r, now) == RideClosing(s, r, now)
            && (r in s.rides ==> r in y.rides && LiveRide(y, r, now) == LiveRide(s, r, now))
  {
  }

  lemma StatementFrame(s: State, i: nat, at: Time)
    requires i < STATEMENTS
    ensures var y := ExpireStatement(s, i, at);
            && y.trips == s.trips && y.fleet == s.fleet && y.policy == s.policy
            && y.rides.Keys == s.rides.Keys && y.offers.Keys == s.offers.Keys
            && y.opportunities.Keys == s.opportunities.Keys
            && (i == 3 || y.rides == s.rides)
            && (i == 0 || i == 4 || y.offers == s.offers)
            && (i == 1 || i == 2 || i == 5 || y.opportunities == s.opportunities)
  {
    hide ExpirePendingOffers, ExpireOfferedOpportunities, ExpireOpenWindows, ExpireRides,
         CloseOffersOfClosedRides, CloseOpportunitiesOfClosedRides;
    TablesKeepKeys(s, at);
  }

  lemma TablesKeepKeys(s: State, at: Time)
    ensures ExpirePendingOffers(s.offers, at).Keys == s.offers.Keys
    ensures CloseOffersOfClosedRides(s.offers, s.rides, at).Keys == s.offers.Keys
    ensures ExpireOfferedOpportunities(s.opportunities, s.offers, at).Keys == s.opportunities.Keys
    ensures ExpireOpenWindows(s.opportunities, at).Keys == s.opportunities.Keys
    ensures CloseOpportunitiesOfClosedRides(s.opportunities, s.rides, at).Keys == s.opportunities.Keys
    ensures ExpireRides(s.rides, s.trips, at).Keys == s.rides.Keys
  {
  }

  lemma OfferStatementTransparent(s: State, i: nat, at: Time, now: Time)
    requires at <= now && (i == 0 || i == 4)
    ensures Live(ExpireStatement(s, i, at), now) == Live(s, now)
  {
    hide Live, LiveOffer, LiveOpportunity, ExpireStatement, SettledRide;
    StatementFrame(s, i, at);
    forall k | k in s.offers { OfferStatementMeaning(s, i, at, now, k); }
    forall k | k in s.opportunities { OfferStatementWindow(s, i, at, now, k); }
    SameRowsSameMeaning(s, ExpireStatement(s, i, at), now);
  }

  lemma OpportunityStatementTransparent(s: State, i: nat, at: Time, now: Time)
    requires at <= now && (i == 1 || i == 2 || i == 5)
    ensures Live(ExpireStatement(s, i, at), now) == Live(s, now)
  {
    hide Live, LiveOpportunity, ExpireStatement, SettledRide, SettledOffer, ErasedOffer;
    StatementFrame(s, i, at);
    var y := ExpireStatement(s, i, at);
    assert forall r :: RideClosing(y, r, now) == RideClosing(s, r, now);
    forall k | k in s.opportunities { OpportunityStatementMeaning(s, i, at, now, k); }
    SameRowsSameMeaning(s, y, now);
  }

  lemma RideStatementTransparent(s: State, at: Time, now: Time)
    requires at <= now
    ensures Live(ExpireStatement(s, 3, at), now) == Live(s, now)
  {
    hide Live, LiveRide, ExpireStatement, SettledRide, RideClosing, SettledOffer, ErasedOffer,
         SettledOpportunity, ErasedOpportunity;
    StatementFrame(s, 3, at);
    forall r { RideStatementMeaning(s, at, now, r); }
    SameRowsSameMeaning(s, ExpireStatement(s, 3, at), now);
  }

  /** Any statement of a sweep, run alone at any instant up to now, leaves the meaning unchanged. */
  lemma StatementIsTransparent(s: State, i: nat, at: Time, now: Time)
    requires at <= now && i < STATEMENTS
    ensures Live(ExpireStatement(s, i, at), now) == Live(s, now)
  {
    hide Live, ExpireStatement;
    if i == 3 { RideStatementTransparent(s, at, now); }
    else if i == 0 || i == 4 { OfferStatementTransparent(s, i, at, now); }
    else { OpportunityStatementTransparent(s, i, at, now); }
  }
}
