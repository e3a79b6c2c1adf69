/**
 * Interleaved assignments refine the atomic one: whatever commits is, up to decision times, what the atomic
 * selection writes on the same rows.
 */
module Refinement {
  import opened Base
  import opened MarketState
  import opened Expiry
  import opened Transactions
  import opened Preservation
  import opened Evolution
  import opened Transparency
  import opened Interleaving

  // ---- What a transaction in flight has written, column by column ----

  predicate OfferWrite(a: Offer, w: Offer, own: bool) {
    && a.status.Pending?
    && w == a.(status := if own then OfferAccepted else OfferClosed, decidedAt := w.decidedAt, updatedAt := w.updatedAt)
  }

  predicate OpportunityWrite(a: Opportunity, w: Opportunity, own: bool) {
    if own then a.status.Offered? && w == a.(status := OpportunityAccepted)
    else (a.status.Open? || a.status.Offered?) && w == a.(status := OpportunityClosed, respondedAt := w.respondedAt)
  }

  predicate TripWrite(trip: Trip, rider: UserId, d: UserId, offer: Offer) {
    trip == NewTrip(rider, d, trip.assignedAt, offer.context)
  }

  ghost predicate WritesExact(db: Db, x: Txn) {
    var b, k := Basis(db, x), x.pair;
    && (forall r | r in x.swept.rides :: r in db.rides && x.swept.rides[r].rider == db.rides[r].rider)
    && (forall j | j in x.swept.offers :: j in db.offers)
    && (forall j | j in x.made.offers :: j in b.offers && OfferWrite(b.offers[j], x.made.offers[j], j == k))
    && (forall j | j in x.made.opportunities ::
          j in b.opportunities && OpportunityWrite(b.opportunities[j], x.made.opportunities[j], j == k))
    && (forall r | r in x.made.rides :: r in b.rides && x.made.rides[r] == b.rides[r].(status := RideAccepted))
    && (|x.made.trips| > 0 ==>
          && k in b.offers
          && forall i | 0 <= i < |x.made.trips| :: TripWrite(x.made.trips[i].trip, x.rider, k.driver, b.offers[k]))
  }

  /** No driver holds an offer on their own ride. */
  ghost predicate OffersToOthers(db: Db) {
    forall k | k in db.offers && k.ride in db.rides :: k.driver != db.rides[k.ride].rider
  }

  ghost predicate RefinementInv(s: System) {
    && SystemInv(s)
    && OffersToOthers(s.db)
    && forall t | t in s.txns :: WritesExact(s.db, s.txns[t])
  }

  // ---- Under the steps of others ----

  /** The rows a transaction has written, and those its trip came from, read the same before and after. */
  ghost predicate SameWrittenRows(db: Db, e: Db, x: Txn) {
    var b, c, k := Basis(db, x), Basis(e, x), x.pair;
    && (forall r | r in x.swept.rides && r in db.rides :: r in e.rides && e.rides[r].rider == db.rides[r].rider)
    && (forall j | j in x.swept.offers && j in db.offers :: j in e.offers)
    && (forall j | j in x.made.offers && j in b.offers :: j in c.offers && c.offers[j] == b.offers[j])
    && (forall j | j in x.made.opportunities && j in b.opportunities ::
          j in c.opportunities && c.opportunities[j] == b.opportunities[j])
    && (forall r | r in x.made.rides && r in b.rides :: r in c.rides && c.rides[r] == b.rides[r])
    && (|x.made.trips| > 0 && k in b.offers ==> k in c.offers && c.offers[k] == b.offers[k])
  }

  lemma WritesStayExact(db: Db, e: Db, x: Txn)
    requires WritesExact(db, x) && SameWrittenRows(db, e, x)
    ensures WritesExact(e, x)
  {
    hide Basis, OfferWrite, OpportunityWrite, TripWrite;
  }

  lemma TripMeansLocked(db: Db, x: Txn)
    requires WritesFit(db, x)
    ensures |x.made.trips| > 0 ==> x.pair in OfferLocks(x)
    ensures x.swept.trips == []
  {
  }

  lemma ElsewhereKeepsExact(db: Db, e: Db, x: Txn)
    requires WritesFit(db, x) && WritesExact(db, x) && RespectsLocks(db, e, x)
    ensures WritesExact(e, x)
  {
    hide WritesFit, WritesExact, RespectsLocks, Basis;
    TripMeansLocked(db, x);
    LockedRowsSurvive(db, e, x);
    WritesStayExact(db, e, x);
  }

  lemma LockedRowsSurvive(db: Db, e: Db, x: Txn)
    requires RespectsLocks(db, e, x)
    ensures forall j | j in OfferLocks(x) && j in Basis(db, x).offers ::
      j in Basis(e, x).offers && Basis(e, x).offers[j] == Basis(db, x).offers[j]
    ensures forall j | j in OpportunityLocks(x) && j in Basis(db, x).opportunities ::
      j in Basis(e, x).opportunities && Basis(e, x).opportunities[j] == Basis(db, x).opportunities[j]
    ensures forall r | r in RideLocks(x) && r in Basis(db, x).rides ::
      r in Basis(e, x).rides && Basis(e, x).rides[r] == Basis(db, x).rides[r]
    ensures forall r | r in x.swept.rides && r in db.rides :: r in e.rides && e.rides[r].rider == db.rides[r].rider
    ensures forall j | j in x.swept.offers && j in db.offers :: j in e.offers
  {
    hide Basis, Pinned, RideLocks, OfferLocks, OpportunityLocks;
    SweptIsLocked(x);
    forall j | j in OfferLocks(x) && j in Basis(db, x).offers
      ensures j in Basis(e, x).offers && Basis(e, x).offers[j] == Basis(db, x).offers[j]
    {
      OverlaidRow(db.offers, e.offers, x.swept.offers, j);
      BasisTables(db, x);
      BasisTables(e, x);
    }
    forall j | j in OpportunityLocks(x) && j in Basis(db, x).opportunities
      ensures j in Basis(e, x).opportunities && Basis(e, x).opportunities[j] == Basis(db, x).opportunities[j]
    {
      OverlaidRow(db.opportunities, e.opportunities, x.swept.opportunities, j);
      BasisTables(db, x);
      BasisTables(e, x);
    }
    forall r | r in RideLocks(x) && r in Basis(db, x).rides
      ensures r in Basis(e, x).rides && Basis(e, x).rides[r] == Basis(db, x).rides[r]
    {
      OverlaidRow(db.rides, e.rides, x.swept.rides, r);
      BasisTables(db, x);
      BasisTables(e, x);
    }
  }

  lemma BasisTables(db: Db, x: Txn)
    ensures Basis(db, x).rides == db.rides + x.swept.rides
    ensures Basis(db, x).offers == db.offers + x.swept.offers
    ensures Basis(db, x).opportunities == db.opportunities + x.swept.opportunities
  {
  }

  lemma OverlaidRow<K, V>(rows: map<K, V>, after: map<K, V>, own: map<K, V>, k: K)
    requires k in rows ==> k in after && after[k] == rows[k]
    ensures k in rows + own ==> k in after + own && (after + own)[k] == (rows + own)[k]
  {
  }

  lemma SweptIsLocked(x: Txn)
    ensures x.swept.rides.Keys <= RideLocks(x) && x.swept.offers.Keys <= OfferLocks(x)
  {
  }

  lemma CommitKeepsOtherExact(db: Db, x: Txn, y: Txn)
    requires WritesFit(db, y) && WritesExact(db, y) && WritesExact(db, x) && Disjoint(x, y)
    ensures WritesExact(Sees(db, x), y)
  {
    hide WritesFit, WritesExact, Disjoint, Basis, Sees;
    TripMeansLocked(db, y);
    forall j | j in OfferLocks(y) && j in Basis(db, y).offers
      ensures j in Basis(Sees(db, x), y).offers && Basis(Sees(db, x), y).offers[j] == Basis(db, y).offers[j]
    {
      OfferElsewhere(db, x, y, j);
    }
    forall j | j in OpportunityLocks(y) && j in Basis(db, y).opportunities
      ensures j in Basis(Sees(db, x), y).opportunities
      ensures Basis(Sees(db, x), y).opportunities[j] == Basis(db, y).opportunities[j]
    {
      OpportunityElsewhere(db, x, y, j);
    }
    forall r | r in RideLocks(y) && r in Basis(db, y).rides
      ensures r in Basis(Sees(db, x), y).rides && Basis(Sees(db, x), y).rides[r] == Basis(db, y).rides[r]
    {
      RideElsewhere(db, x, y, r);
    }
    CommittedKeys(db, x);
    WritesStayExact(db, Sees(db, x), y);
  }

  lemma OfferElsewhere(db: Db, x: Txn, y: Txn, j: Pair)
    requires Disjoint(x, y) && j in OfferLocks(y) && j in Basis(db, y).offers
    ensures j in Basis(Sees(db, x), y).offers && Basis(Sees(db, x), y).offers[j] == Basis(db, y).offers[j]
  {
    UntouchedRow(db.offers, x.swept.offers, x.made.offers, y.swept.offers, j);
  }

  lemma OpportunityElsewhere(db: Db, x: Txn, y: Txn, j: Pair)
    requires Disjoint(x, y) && j in OpportunityLocks(y) && j in Basis(db, y).opportunities
    ensures j in Basis(Sees(db, x), y).opportunities
    ensures Basis(Sees(db, x), y).opportunities[j] == Basis(db, y).opportunities[j]
  {
    UntouchedRow(db.opportunities, x.swept.opportunities, x.made.opportunities, y.swept.opportunities, j);
  }

  lemma RideElsewhere(db: Db, x: Txn, y: Txn, r: RideId)
    requires Disjoint(x, y) && r in RideLocks(y) && r in Basis(db, y).rides
    ensures r in Basis(Sees(db, x), y).rides && Basis(Sees(db, x), y).rides[r] == Basis(db, y).rides[r]
  {
    UntouchedRow(db.rides, x.swept.rides, x.made.rides, y.swept.rides, r);
  }

  lemma CommittedKeys(db: Db, x: Txn)
    requires WritesExact(db, x)
    ensures forall r | r in db.rides :: r in Sees(db, x).rides && Sees(db, x).rides[r].rider == db.rides[r].rider
    ensures forall j | j in db.offers :: j in Sees(db, x).offers
    ensures forall r | r in Sees(db, x).rides :: r in db.rides
    ensures forall j | j in Sees(db, x).offers :: j in db.offers
  {
    hide OfferWrite, OpportunityWrite, TripWrite;
  }

  // ---- Under its own statements ----

  lemma CheckKeepsExact(db: Db, x: Txn, now: Time)
    requires WritesExact(db, x) && x.pc < OPERATION_MATCHED
    ensures WritesExact(db, Executed(db, x, now))
  {
    hide Overlay, OfferWrite, OpportunityWrite, TripWrite, ClosedOffers, ClosedOpportunities;
  }

  lemma AcceptingOfferExact(db: Db, x: Txn, now: Time)
    requires StillHolds(db, x) && WritesFit(db, x) && WritesExact(db, x) && x.pc == OPERATION_MATCHED
    ensures WritesExact(db, Executed(db, x, now))
  {
    hide Overlay, TripWrite, OpportunityWrite, HasTrip, HasActiveTrip, Equipped, Matches, Sees;
    OwnRows(db, x, x.pair);
  }

  lemma AcceptingOpportunityExact(db: Db, x: Txn, now: Time)
    requires StillHolds(db, x) && WritesFit(db, x) && WritesExact(db, x) && x.pc == OFFER_ACCEPTED
    ensures WritesExact(db, Executed(db, x, now))
  {
    hide Overlay, TripWrite, OfferWrite, HasTrip, HasActiveTrip, Equipped, Matches, Sees;
    OwnRows(db, x, x.pair);
  }

  lemma InsertingExact(db: Db, x: Txn, now: Time)
    requires StillHolds(db, x) && WritesFit(db, x) && WritesExact(db, x) && x.pc == OPPORTUNITY_ACCEPTED
    ensures WritesExact(db, Executed(db, x, now))
  {
    hide Overlay, OfferWrite, OpportunityWrite, HasTrip, HasActiveTrip, Equipped, Matches, Sees;
    OwnRows(db, x, x.pair);
  }

  lemma MarkingExact(db: Db, x: Txn, now: Time)
    requires StillHolds(db, x) && WritesFit(db, x) && WritesExact(db, x) && x.pc == TRIP_INSERTED
    ensures WritesExact(db, Executed(db, x, now))
  {
    hide Overlay, TripWrite, OfferWrite, OpportunityWrite, HasTrip, HasActiveTrip, Equipped, Matches, Sees;
    OwnRows(db, x, x.pair);
  }

  /** Competitors still pending under the transaction's own writes are ones it has not written. */
  lemma ClosingOffersExact(db: Db, x: Txn, now: Time)
    requires WritesExact(db, x) && x.pc == RIDE_MARKED
    ensures WritesExact(db, Executed(db, x, now))
  {
    hide Overlay, TripWrite, OpportunityWrite, ClosedOffers, Sees;
    var closed := ClosedOffers(Sees(db, x), x.pair, now);
    forall j | j in closed
      ensures j != x.pair && j in Basis(db, x).offers && OfferWrite(Basis(db, x).offers[j], closed[j], false)
    {
      ClosedCompetitor(db, x, now, j);
    }
    assert Executed(db, x, now) == x.(pc := x.pc + 1, made := x.made.(offers := x.made.offers + closed));
  }

  lemma ClosedCompetitor(db: Db, x: Txn, now: Time, j: Pair)
    requires WritesExact(db, x) && j in ClosedOffers(Sees(db, x), x.pair, now)
    ensures j != x.pair && j in Basis(db, x).offers
    ensures OfferWrite(Basis(db, x).offers[j], ClosedOffers(Sees(db, x), x.pair, now)[j], false)
  {
    hide Overlay, TripWrite, OpportunityWrite, Sees;
    OwnRows(db, x, j);
  }

  lemma ClosedCompetitorWindow(db: Db, x: Txn, now: Time, j: Pair)
    requires WritesExact(db, x) && j in ClosedOpportunities(Sees(db, x), x.pair, now)
    ensures j != x.pair && j in Basis(db, x).opportunities
    ensures OpportunityWrite(Basis(db, x).opportunities[j], ClosedOpportunities(Sees(db, x), x.pair, now)[j], false)
  {
    hide Overlay, TripWrite, OfferWrite, Sees;
    OwnRows(db, x, j);
  }

  lemma ClosingOpportunitiesExact(db: Db, x: Txn, now: Time)
    requires WritesExact(db, x) && x.pc == OFFERS_CLOSED
    ensures WritesExact(db, Executed(db, x, now))
  {
    hide Overlay, TripWrite, OfferWrite, ClosedOpportunities, Sees;
    var closed := ClosedOpportunities(Sees(db, x), x.pair, now);
    forall j | j in closed
      ensures j != x.pair && j in Basis(db, x).opportunities
      ensures OpportunityWrite(Basis(db, x).opportunities[j], closed[j], false)
    {
      ClosedCompetitorWindow(db, x, now, j);
    }
    assert Executed(db, x, now) == x.(pc := x.pc + 1, made := x.made.(opportunities := x.made.opportunities + closed));
  }

  lemma AdvanceKeepsExact(db: Db, x: Txn, now: Time)
    requires StillHolds(db, x) && WritesFit(db, x) && WritesExact(db, x) && x.pc < OPPORTUNITIES_CLOSED
    ensures WritesExact(db, Executed(db, x, now))
  {
    hide StillHolds, WritesFit, WritesExact, Executed;
    if x.pc < OPERATION_MATCHED { CheckKeepsExact(db, x, now); }
    else if x.pc == OPERATION_MATCHED { AcceptingOfferExact(db, x, now); }
    else if x.pc == OFFER_ACCEPTED { AcceptingOpportunityExact(db, x, now); }
    else if x.pc == OPPORTUNITY_ACCEPTED { InsertingExact(db, x, now); }
    else if x.pc == TRIP_INSERTED { MarkingExact(db, x, now); }
    else if x.pc == RIDE_MARKED { ClosingOffersExact(db, x, now); }
    else { ClosingOpportunitiesExact(db, x, now); }
  }

  lemma SweepKeepsExact(db: Db, x: Txn, a: Action, now: Time)
    requires WritesFit(db, x) && WritesExact(db, x) && Sweeping(db, x, a, now).Some?
    ensures WritesExact(db, Sweeping(db, x, a, now).value)
  {
    hide OfferWrite, OpportunityWrite, TripWrite, HasTrip;
  }

  // ---- Every action keeps the invariant ----

  /** Outside steps never put an offer on its driver's own ride; the offer transaction refuses it. */
  ghost predicate HonestAction(a: Action) {
    a.Elsewhere? ==> OffersToOthers(a.db)
  }

  lemma ExactOf(s: System, t: TxnId)
    requires RefinementInv(s) && t in s.txns
    ensures StillHolds(s.db, s.txns[t]) && WritesFit(s.db, s.txns[t]) && WritesExact(s.db, s.txns[t])
  {
    hide StillHolds, WritesFit, WritesExact, Exclusive, OneTripPerRide, OneActiveTripPerDriver, OffersToOthers;
  }

  lemma CommitKeepsExact(s: System, t: TxnId)
    requires RefinementInv(s) && Allowed(s, Commit(t))
    ensures var y := Act(s, Commit(t)); OffersToOthers(y.db) && forall u | u in y.txns :: WritesExact(y.db, y.txns[u])
  {
    hide StillHolds, WritesFit, WritesExact, Sees, OneTripPerRide, OneActiveTripPerDriver, Disjoint;
    var x := s.txns[t];
    ExactOf(s, t);
    CommittedKeys(s.db, x);
    forall u | u in s.txns && u != t ensures WritesExact(Sees(s.db, x), s.txns[u]) {
      ExactOf(s, u);
      CommitKeepsOtherExact(s.db, x, s.txns[u]);
    }
  }

  lemma ActKeepsExact(s: System, a: Action)
    requires RefinementInv(s) && Allowed(s, a) && HonestAction(a) && !a.Commit?
    ensures var y := Act(s, a); OffersToOthers(y.db) && forall u | u in y.txns :: WritesExact(y.db, y.txns[u])
  {
    hide SystemInv, StillHolds, WritesFit, WritesExact, Passes, Executed, Sweeping, Granted, MovesForward, RespectsLocks,
         Sees, OffersToOthers;
    forall u | u in s.txns { ExactOf(s, u); }
    if a.Begin? { NewTxnExact(s.db, Txn(a.pair, a.rider, a.version, SWEEPING, NOTHING, NOTHING)); }
    else if a.Advance? { AdvanceKeepsExact(s.db, s.txns[a.t], s.now); }
    else if a.Elsewhere? { forall u | u in s.txns { ElsewhereKeepsExact(s.db, a.db, s.txns[u]); } }
    else if !a.Rollback? { SweepKeepsExact(s.db, s.txns[a.t], a, s.now); }
  }

  lemma NewTxnExact(db: Db, x: Txn)
    requires x.swept == NOTHING && x.made == NOTHING
    ensures WritesExact(db, x)
  {
    hide Basis;
  }

  lemma ActKeepsRefinementInv(s: System, a: Action)
    requires RefinementInv(s) && Allowed(s, a) && HonestAction(a)
    ensures RefinementInv(Act(s, a))
  {
    hide SystemInv, Allowed, Act, HonestAction, WritesExact, OffersToOthers;
    ActKeepsInv(s, a);
    if a.Commit? { CommitKeepsExact(s, a.t); } else { ActKeepsExact(s, a); }
  }

  lemma {:induction false} ScheduleKeepsRefinementInv(s: System, actions: seq<Action>)
    requires RefinementInv(s) && Schedule(s, actions) && forall i | 0 <= i < |actions| :: HonestAction(actions[i])
    ensures RefinementInv(Outcome(s, actions))
    decreases |actions|
  {
    hide RefinementInv, Allowed, Act, HonestAction;
    if actions != [] {
      ActKeepsRefinementInv(s, actions[0]);
      ScheduleKeepsRefinementInv(Act(s, actions[0]), actions[1..]);
    }
  }

  /** Every system reached from one without trips and transactions satisfies the invariant. */
  lemma ReachableSystemsRefine(db: Db, now: Time, actions: seq<Action>)
    requires db.trips == [] && OffersToOthers(db) && Schedule(System(db, now, map[]), actions)
    requires forall i | 0 <= i < |actions| :: HonestAction(actions[i])
    ensures RefinementInv(Outcome(System(db, now, map[]), actions))
  {
    hide Schedule, Outcome, HonestAction, OffersToOthers;
    ScheduleKeepsRefinementInv(System(db, now, map[]), actions);
  }

  // ---- What a commit writes is what the atomic selection writes ----

  /** The same state with the pair's own decision and assignment moved to another instant. */
  function Retimed(y: State, k: Pair, at: Time): State
    requires k in y.offers && k.ride in y.trips
  {
    y.(offers := y.offers[k := y.offers[k].(decidedAt := Some(at), updatedAt := at)],
       trips := y.trips[k.ride := y.trips[k.ride].(assignedAt := at)])
  }

  /** y is s with the pair's ride assigned at some instant, its competitors closed or not, and nothing else changed. */
  ghost predicate AssignedFrom(s: State, y: State, k: Pair, rider: UserId) {
    && y.fleet == s.fleet && y.policy == s.policy
    && k.ride in s.rides && y.rides == s.rides[k.ride := s.rides[k.ride].(status := RideAccepted)]
    && k in s.offers && k in s.opportunities
    && k.ride in y.trips && y.trips == s.trips[k.ride := y.trips[k.ride]]
    && TripWrite(y.trips[k.ride], rider, k.driver, s.offers[k])
    && y.offers.Keys == s.offers.Keys && y.opportunities.Keys == s.opportunities.Keys
    && OfferWrite(s.offers[k], y.offers[k], true) && OpportunityWrite(s.opportunities[k], y.opportunities[k], true)
    && (forall j | j in s.offers && j != k ::
          y.offers[j] == s.offers[j] || (j.ride == k.ride && OfferWrite(s.offers[j], y.offers[j], false)))
    && (forall j | j in s.opportunities && j != k ::
          y.opportunities[j] == s.opportunities[j]
          || (j.ride == k.ride && OpportunityWrite(s.opportunities[j], y.opportunities[j], false)))
  }

  lemma SelectedTables(x: State, at: Time, k: Pair)
    requires Selecting(x, at, k)
    ensures var w := Selected(x, at, k);
      && w.fleet == x.fleet && w.policy == x.policy
      && w.rides == x.rides[k.ride := x.rides[k.ride].(status := RideAccepted)]
      && w.trips == x.trips[k.ride := NewTrip(x.rides[k.ride].rider, k.driver, at, x.offers[k].context)]
      && w.offers.Keys == x.offers.Keys && w.opportunities.Keys == x.opportunities.Keys
  {
    hide Busy, DecideOffer, CloseOpportunity, NewTrip;
  }

  lemma SelectedOpportunityRow(x: State, at: Time, k: Pair, j: Pair)
    requires Selecting(x, at, k) && j in x.opportunities
    ensures j in Selected(x, at, k).opportunities
    ensures Selected(x, at, k).opportunities[j] ==
      var o := x.opportunities[j];
      if j == k then o.(status := OpportunityAccepted)
      else if j.ride == k.ride && (o.status.Open? || o.status.Offered?) then CloseOpportunity(o, at)
      else o
  {
    hide Busy, NewTrip, CloseRideOffers;
  }

  lemma SelectedLapse(x: State, at: Time, k: Pair, j: Pair)
    requires Selecting(x, at, k) && j.ride != k.ride
    ensures OfferLapsed(Selected(x, at, k).offers, j, at) == OfferLapsed(x.offers, j, at)
  {
    hide Busy, NewTrip, CloseRideOpportunities;
  }

  lemma SelectedClosing(x: State, at: Time, k: Pair, r: RideId)
    requires Selecting(x, at, k)
    ensures RideClosing(Selected(x, at, k), r, at) == (r == k.ride || RideClosing(x, r, at))
  {
    hide Selected, Busy;
    SelectedTables(x, at, k);
  }

  lemma SelectedOfferRow(x: State, at: Time, k: Pair, j: Pair)
    requires Selecting(x, at, k) && j in x.offers
    ensures j in Selected(x, at, k).offers
    ensures Selected(x, at, k).offers[j] ==
      var o := x.offers[j];
      if j == k then DecideOffer(o, OfferAccepted, at)
      else if j.ride == k.ride && o.status.Pending? then DecideOffer(o, OfferClosed, at)
      else o
  {
    hide Busy, NewTrip, CloseRideOpportunities;
  }

  lemma RetimedClosing(s: State, y: State, k: Pair, rider: UserId, at: Time, r: RideId)
    requires AssignedFrom(s, y, k, rider)
    ensures RideClosing(Retimed(y, k, at), r, at) == (r == k.ride || RideClosing(s, r, at))
  {
    hide OfferWrite, OpportunityWrite, TripWrite;
  }

  lemma RetimedLapse(s: State, y: State, k: Pair, rider: UserId, at: Time, j: Pair)
    requires AssignedFrom(s, y, k, rider) && j.ride != k.ride
    ensures OfferLapsed(Retimed(y, k, at).offers, j, at) == OfferLapsed(s.offers, j, at)
  {
    hide OfferWrite, OpportunityWrite, TripWrite;
  }

  lemma AssignedOfferMeaning(s: State, y: State, k: Pair, rider: UserId, at: Time, j: Pair)
    requires Selecting(s, at, k) && AssignedFrom(s, y, k, rider) && j in s.offers
    ensures j in Selected(s, at, k).offers && j in Retimed(y, k, at).offers
    ensures LiveOffer(Retimed(y, k, at), j, at) == LiveOffer(Selected(s, at, k), j, at)
  {
    hide Selecting, Selected, RideClosing, OpportunityWrite, TripWrite;
    SelectedOfferRow(s, at, k, j);
    SelectedClosing(s, at, k, j.ride);
    RetimedClosing(s, y, k, rider, at, j.ride);
  }

  lemma AssignedOpportunityMeaning(s: State, y: State, k: Pair, rider: UserId, at: Time, j: Pair)
    requires Selecting(s, at, k) && AssignedFrom(s, y, k, rider) && j in s.opportunities
    ensures j in Selected(s, at, k).opportunities && j in Retimed(y, k, at).opportunities
    ensures LiveOpportunity(Retimed(y, k, at), j, at) == LiveOpportunity(Selected(s, at, k), j, at)
  {
    hide Selecting, Selected, RideClosing, OfferLapsed, OfferWrite, TripWrite;
    SelectedOpportunityRow(s, at, k, j);
    SelectedClosing(s, at, k, j.ride);
    RetimedClosing(s, y, k, rider, at, j.ride);
    if j.ride != k.ride {
      SelectedLapse(s, at, k, j);
      RetimedLapse(s, y, k, rider, at, j);
    }
  }

  lemma AssignedFrame(s: State, y: State, k: Pair, rider: UserId, at: Time)
    requires Selecting(s, at, k) && AssignedFrom(s, y, k, rider) && s.rides[k.ride].rider == rider
    ensures var z, w := Retimed(y, k, at), Selected(s, at, k);
      && z.trips == w.trips && z.fleet == w.fleet && z.policy == w.policy && z.rides == w.rides
      && z.offers.Keys == w.offers.Keys == s.offers.Keys
      && z.opportunities.Keys == w.opportunities.Keys == s.opportunities.Keys
  {
    hide Selected, Selecting, OfferWrite, OpportunityWrite;
    SelectedTables(s, at, k);
  }

  /** Moving the decision to one instant, the rows mean what the atomic writes mean. */
  lemma AssignedMeaning(s: State, y: State, k: Pair, rider: UserId, at: Time)
    requires Selecting(s, at, k) && AssignedFrom(s, y, k, rider) && s.rides[k.ride].rider == rider
    ensures k in y.offers && k.ride in y.trips
    ensures Live(Retimed(y, k, at), at) == Live(Selected(s, at, k), at)
  {
    hide Live, LiveOffer, LiveOpportunity, Selecting, Selected, Retimed;
    AssignedFrame(s, y, k, rider, at);
    forall j | j in s.offers { AssignedOfferMeaning(s, y, k, rider, at, j); }
    forall j | j in s.opportunities { AssignedOpportunityMeaning(s, y, k, rider, at, j); }
    SameRowsSameMeaning(Selected(s, at, k), Retimed(y, k, at), at);
  }

  // ---- The atomic selection sweeps first; that changes no meaning either ----

  lemma SweptSelecting(s: State, at: Time, k: Pair)
    requires Selecting(s, at, k) && s.offers[k].expiresAt > at
    ensures Selecting(Settle(s, at), at, k)
    ensures var x := Settle(s, at);
            x.offers[k] == s.offers[k] && x.opportunities[k] == s.opportunities[k] && x.rides[k.ride] == s.rides[k.ride]
  {
    hide Busy;
  }

  lemma SweptOfferMeaning(s: State, at: Time, k: Pair, j: Pair)
    requires Selecting(s, at, k) && s.offers[k].expiresAt > at && Selecting(Settle(s, at), at, k) && j in s.offers
    ensures j in Selected(Settle(s, at), at, k).offers && j in Selected(s, at, k).offers
    ensures LiveOffer(Selected(Settle(s, at), at, k), j, at) == LiveOffer(Selected(s, at, k), j, at)
  {
    hide Busy, CloseRideOpportunities, AcceptOpportunity, NewTrip;
    SweptSelecting(s, at, k);
  }

  lemma SweptOpportunityMeaning(s: State, at: Time, k: Pair, j: Pair)
    requires Selecting(s, at, k) && s.offers[k].expiresAt > at && Selecting(Settle(s, at), at, k) && j in s.opportunities
    ensures j in Selected(Settle(s, at), at, k).opportunities && j in Selected(s, at, k).opportunities
    ensures LiveOpportunity(Selected(Settle(s, at), at, k), j, at) == LiveOpportunity(Selected(s, at, k), j, at)
  {
    hide Busy, Selecting, Selected, Settle, RideClosing, OfferLapsed, SettledOpportunity;
    SweptSelecting(s, at, k);
    SweptRow(s, at, j);
    SelectedOpportunityRow(s, at, k, j);
    SelectedOpportunityRow(Settle(s, at), at, k, j);
    SelectedClosing(s, at, k, j.ride);
    SelectedClosing(Settle(s, at), at, k, j.ride);
    if j.ride != k.ride {
      SelectedLapse(s, at, k, j);
      SelectedLapse(Settle(s, at), at, k, j);
    }
    SweptThenClosed(s.opportunities[j], OfferLapsed(s.offers, j, at), RideClosing(s, j.ride, at),
                    OfferLapsed(Selected(Settle(s, at), at, k).offers, j, at), OfferLapsed(Selected(s, at, k).offers, j, at), at);
    WonAlike(s.opportunities[j].(status := OpportunityAccepted),
             OfferLapsed(Selected(Settle(s, at), at, k).offers, j, at), OfferLapsed(Selected(s, at, k).offers, j, at), at);
  }

  lemma WonAlike(o: Opportunity, one: bool, other: bool, at: Time)
    requires o.status.OpportunityAccepted?
    ensures SettledOpportunity(o, one, true, at) == SettledOpportunity(o, other, true, at)
  {
  }

  /** Sweeping a row before it is closed, or swept again, leaves it meaning the same. */
  lemma SweptThenClosed(o: Opportunity, lapsed: bool, closing: bool, one: bool, other: bool, at: Time)
    ensures var p := SettledOpportunity(o, lapsed, closing, at);
      && SettledOpportunity(p, lapsed, closing, at) == p
      && ErasedOpportunity(SettledOpportunity(if p.status.Open? || p.status.Offered? then CloseOpportunity(p, at) else p,
                                              one, true, at))
         == ErasedOpportunity(SettledOpportunity(if o.status.Open? || o.status.Offered? then CloseOpportunity(o, at) else o,
                                                 other, true, at))
  {
  }

  /** How a row and its neighbours read after the sweep. */
  lemma SweptRow(s: State, at: Time, j: Pair)
    ensures var x := Settle(s, at);
      && RideClosing(x, j.ride, at) == RideClosing(s, j.ride, at)
      && OfferLapsed(s.offers, j, at) == OfferLapsed(x.offers, j, at)
      && (j in s.opportunities ==>
            j in x.opportunities
            && x.opportunities[j]
               == SettledOpportunity(s.opportunities[j], OfferLapsed(s.offers, j, at), RideClosing(s, j.ride, at), at))
  {
  }

  lemma SweptFrame(s: State, at: Time, k: Pair)
    requires Selecting(s, at, k) && s.offers[k].expiresAt > at && Selecting(Settle(s, at), at, k)
    ensures var z, w := Selected(Settle(s, at), at, k), Selected(s, at, k);
      && z.trips == w.trips && z.fleet == w.fleet && z.policy == w.policy
      && z.rides.Keys == w.rides.Keys && (forall r | r in w.rides :: LiveRide(z, r, at) == LiveRide(w, r, at))
      && z.offers.Keys == w.offers.Keys == s.offers.Keys
      && z.opportunities.Keys == w.opportunities.Keys == s.opportunities.Keys
  {
    hide Selected, Selecting, SettledOffer, SettledOpportunity, RideClosing, OfferLapsed;
    SweptSelecting(s, at, k);
    SelectedTables(s, at, k);
    SelectedTables(Settle(s, at), at, k);
  }

  lemma SweptMeaning(s: State, at: Time, k: Pair)
    requires Selecting(s, at, k) && s.offers[k].expiresAt > at
    ensures Selecting(Settle(s, at), at, k)
    ensures Live(Selected(Settle(s, at), at, k), at) == Live(Selected(s, at, k), at)
  {
    hide Live, LiveRide, LiveOffer, LiveOpportunity, Selecting, Selected, Settle;
    SweptSelecting(s, at, k);
    SweptFrame(s, at, k);
    forall j | j in s.offers { SweptOfferMeaning(s, at, k, j); }
    forall j | j in s.opportunities { SweptOpportunityMeaning(s, at, k, j); }
    SameRowsSameMeaning(Selected(s, at, k), Selected(Settle(s, at), at, k), at);
  }

  // ---- The theorem ----

  lemma CommitIsAssignment(db: Db, x: Txn, policy: TimingPolicy)
    requires OneTripPerRide(db.trips) && StillHolds(db, x) && WritesFit(db, x) && WritesExact(db, x)
    requires x.pc == OPPORTUNITIES_CLOSED
    ensures AssignedFrom(Snapshot(Basis(db, x), policy), Snapshot(Sees(db, x), policy), x.pair, x.rider)
  {
    hide HasTrip, HasActiveTrip, Equipped, Matches, Overlay, Sees, OneTripPerRide;
    forall j { OwnRows(db, x, j); }
    CommittedRide(db, x);
    SweptNoTrips(db, x);
    TripAppended(db, x);
    assert (db.trips + [x.made.trips[0]])[..|db.trips|] == db.trips;
    SeesFleet(db, x);
  }

  lemma SeesFleet(db: Db, x: Txn)
    ensures Sees(db, x).fleet == Basis(db, x).fleet
  {
  }

  /** Deadlines and position still good at some instant, a commit's checks are those of the atomic selection. */
  predicate StillGood(db: Db, x: Txn, at: Time) {
    var b := Basis(db, x);
    && (x.pair.ride in b.rides ==> b.rides[x.pair.ride].expiresAt > at)
    && (x.pair in b.offers ==> b.offers[x.pair].expiresAt > at)
    && FreshPosition(db.fleet, x.pair.driver, at)
  }

  lemma DriverIsNotTheRider(db: Db, x: Txn)
    requires OffersToOthers(db) && StillHolds(db, x) && WritesExact(db, x) && x.pc == OPPORTUNITIES_CLOSED
    ensures x.pair.driver != x.rider
  {
    hide HasTrip, HasActiveTrip, Equipped, Matches, OfferWrite, OpportunityWrite, TripWrite;
  }

  lemma AtomicSelectionWrites(s: State, at: Time, k: Pair, rider: UserId, version: Time)
    requires SelectRefusal(s, at, k, rider, version).None?
    ensures Selecting(s, at, k) && s.rides[k.ride].rider == rider && s.offers[k].expiresAt > at
  {
  }

  lemma RefusalOfSwept(s: State, at: Time, k: Pair, rider: UserId, version: Time)
    requires SelectRefusal(s, at, k, rider, version).None? && Selecting(Settle(s, at), at, k)
    ensures SelectRefusal(Settle(s, at), at, k, rider, version).None?
  {
    hide Selecting;
  }

  /**
   * Whatever its statements waited for, a committed assignment is one the atomic selection accepts on the rows
   * it commits against, at any instant at which deadlines and position are good; and the committed tables mean
   * what the atomic selection leaves, once the pair's decision and assignment are moved to that instant.
   */
  lemma CommitRefinesAtomicSelection(s: System, t: TxnId, at: Time, policy: TimingPolicy)
    requires RefinementInv(s) && Allowed(s, Commit(t)) && StillGood(s.db, s.txns[t], at)
    ensures var x, y := s.txns[t], Snapshot(Act(s, Commit(t)).db, policy);
            var atomic := SelectOffer(Snapshot(Basis(s.db, x), policy), at, x.pair, x.rider, x.version);
      && x.pair in y.offers && x.pair.ride in y.trips
      && atomic.result == Ok(y.trips[x.pair.ride].(assignedAt := at))
      && Live(Retimed(y, x.pair, at), at) == Live(atomic.state, at)
  {
    hide WritesExact, OffersToOthers, SystemInv, StillHolds, WritesFit, Basis, Sees, Snapshot, Live, Settle, Selecting,
         Selected, Retimed, SelectOffer, SelectRefusal;
    var x := s.txns[t];
    ExactOf(s, t);
    OneTrip(s);
    DriverIsNotTheRider(s.db, x);
    CommitAgreesWithAtomicSelection(s, t, at, policy);
    var b, y := Snapshot(Basis(s.db, x), policy), Snapshot(Sees(s.db, x), policy);
    CommitIsAssignment(s.db, x, policy);
    AtomicSelectionWrites(b, at, x.pair, x.rider, x.version);
    AssignedMeaning(b, y, x.pair, x.rider, at);
    SweptMeaning(b, at, x.pair);
    RefusalOfSwept(b, at, x.pair, x.rider, x.version);
    AtomicOutcome(b, at, x.pair, x.rider, x.version);
  }

  lemma OneTrip(s: System)
    requires SystemInv(s)
    ensures OneTripPerRide(s.db.trips)
  {
    hide Exclusive, StillHolds, WritesFit, OneActiveTripPerDriver, OneTripPerRide;
  }

  lemma AtomicOutcome(s: State, at: Time, k: Pair, rider: UserId, version: Time)
    requires Selecting(s, at, k) && s.offers[k].expiresAt > at
    requires SelectRefusal(Settle(s, at), at, k, rider, version).None?
    ensures Selecting(Settle(s, at), at, k)
    ensures SelectOffer(s, at, k, rider, version)
         == Tx(Selected(Settle(s, at), at, k), Ok(NewTrip(rider, k.driver, at, s.offers[k].context)))
  {
    hide Selecting, Selected, Settle, SelectRefusal;
    SweptSelecting(s, at, k);
    assert SelectOffer(s, at, k, rider, version).result.Ok?;
    SelectOfferWrites(s, at, k, rider, version);
  }
}
