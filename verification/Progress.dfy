/** An assignment that nobody contends with commits exactly when the atomic selection succeeds, with the same meaning. */
module Progress {
  import opened Base
  import opened MarketState
  import opened Expiry
  import opened Transactions
  import opened Transparency
  import opened Interleaving
  import opened Refinement
  import M = Meanings

  function Advances(t: TxnId, n: nat): seq<Action> {
    if n == 0 then [Commit(t)] else [Advance(t)] + Advances(t, n - 1)
  }

  /** An assignment from its beginning to its commit with nobody in between. */
  function Solo(t: TxnId, k: Pair, rider: UserId, version: Time): seq<Action> {
    [Begin(t, k, rider, version)] + Advances(t, OPPORTUNITIES_CLOSED)
  }

  /** Nobody else holds the ride, a response to it, or the driver's profile. */
  ghost predicate Uncontended(s: System, t: TxnId, k: Pair) {
    forall u | u in s.txns && u != t ::
      && k.ride !in RideLocks(s.txns[u]) && k.driver !in ProfileLocks(s.txns[u])
      && (forall j | j in OfferLocks(s.txns[u]) :: j.ride != k.ride)
      && (forall j | j in OpportunityLocks(s.txns[u]) :: j.ride != k.ride)
  }

  predicate AllPass(db: Db, x: Txn, now: Time, n: nat)
    decreases n
  {
    n == 0 || (Passes(db, x, now) && AllPass(db, Executed(db, x, now), now, n - 1))
  }

  /** Every decision and assignment written so far carries the instant. */
  predicate MadeAt(w: Writes, now: Time) {
    && (forall j | j in w.offers :: w.offers[j].decidedAt == Some(now) && w.offers[j].updatedAt == now)
    && (forall i | 0 <= i < |w.trips| :: w.trips[i].trip.assignedAt == now)
  }

  lemma WritesNow(db: Db, x: Txn, now: Time)
    requires MadeAt(x.made, now)
    ensures MadeAt(Executed(db, x, now).made, now)
  {
    hide Sees, CloseOpportunity;
  }

  /** A transaction that has swept nothing keeps to its own ride and driver. */
  lemma LocksOwnRows(db: Db, x: Txn, now: Time)
    requires WritesFit(db, x) && x.swept == NOTHING
    ensures var y := Executed(db, x, now);
      && y.pair == x.pair && y.rider == x.rider && y.version == x.version && y.swept == NOTHING && y.pc == x.pc + 1
      && RideLocks(y) <= {x.pair.ride} && ProfileLocks(y) <= {x.pair.driver}
      && (forall j | j in OfferLocks(y) :: j.ride == x.pair.ride)
      && (forall j | j in OpportunityLocks(y) :: j.ride == x.pair.ride)
  {
    hide Sees, Basis, DecideOffer, CloseOpportunity;
  }

  lemma NobodyWaits(s: System, t: TxnId)
    requires SystemInv(s) && t in s.txns && Uncontended(s, t, s.txns[t].pair) && s.txns[t].swept == NOTHING
    requires s.txns[t].pc < OPPORTUNITIES_CLOSED
    ensures Allowed(s, Advance(t))
    ensures var y := Executed(s.db, s.txns[t], s.now);
      y.pair == s.txns[t].pair && y.rider == s.txns[t].rider && y.version == s.txns[t].version
      && y.swept == NOTHING && y.pc == s.txns[t].pc + 1
  {
    hide Executed, Passes, WritesFit, StillHolds, RideLocks, OfferLocks, OpportunityLocks, ProfileLocks;
    TxnOf(s, t);
    LocksOwnRows(s.db, s.txns[t], s.now);
  }

  lemma {:induction false} AdvancesCommit(s: System, t: TxnId, n: nat) returns (z: System)
    requires RefinementInv(s) && t in s.txns && Uncontended(s, t, s.txns[t].pair) && s.txns[t].swept == NOTHING
    requires s.txns[t].pc + n == OPPORTUNITIES_CLOSED && MadeAt(s.txns[t].made, s.now)
    ensures Schedule(s, Advances(t, n)) <==> AllPass(s.db, s.txns[t], s.now, n)
    ensures Schedule(s, Advances(t, n)) ==>
      && RefinementInv(z) && Allowed(z, Commit(t)) && z.db == s.db && z.now == s.now
      && z.txns[t].pair == s.txns[t].pair && z.txns[t].rider == s.txns[t].rider && z.txns[t].version == s.txns[t].version
      && z.txns[t].swept == NOTHING && MadeAt(z.txns[t].made, s.now)
      && Outcome(s, Advances(t, n)) == Act(z, Commit(t))
    decreases n
  {
    hide Passes, Executed, WritesFit, StillHolds, Exclusive, WritesExact, OffersToOthers, RideLocks, OfferLocks,
         OpportunityLocks, ProfileLocks, Granted, OneTripPerRide, OneActiveTripPerDriver, RefinementInv, MadeAt;
    z := s;
    if n == 0 {
      assert Advances(t, 0)[1..] == [];
    } else {
      var rest := Advances(t, n - 1);
      assert Advances(t, n)[0] == Advance(t) && Advances(t, n)[1..] == rest;
      SystemOf(s);
      NobodyWaits(s, t);
      WritesNow(s.db, s.txns[t], s.now);
      ActKeepsRefinementInv(s, Advance(t));
      var y := Act(s, Advance(t));
      if Passes(s.db, s.txns[t], s.now) { z := AdvancesCommit(y, t, n - 1); }
      else { NotAllowed(y, t, n - 1); }
    }
  }

  lemma SystemOf(s: System)
    requires RefinementInv(s)
    ensures SystemInv(s)
  {
  }

  lemma NotAllowed(s: System, t: TxnId, n: nat)
    requires t !in s.txns
    ensures !Schedule(s, Advances(t, n))
  {
    hide Granted, Executed, Passes, RespectsLocks, MovesForward;
  }

  // ---- The seven checks are the atomic selection's ----

  lemma UnsweptSees(db: Db, x: Txn)
    requires x.swept == NOTHING && x.made == NOTHING
    ensures Sees(db, x) == db
  {
    assert db.rides + map[] == db.rides && db.offers + map[] == db.offers;
    assert db.opportunities + map[] == db.opportunities && db.trips + [] == db.trips;
  }

  /** Each check reads the committed rows, until the first write. */
  lemma CheckStep(db: Db, x: Txn, now: Time, n: nat)
    requires x.swept == NOTHING && x.made == NOTHING && x.pc <= DRIVER_ELIGIBLE && n > 0
    ensures Sees(db, x) == db
    ensures AllPass(db, x, now, n) <==> Passes(db, x, now) && AllPass(db, x.(pc := x.pc + 1), now, n - 1)
  {
    hide Passes;
    UnsweptSees(db, x);
    assert Executed(db, x, now) == x.(pc := x.pc + 1);
  }

  /** After the checks only the ride's deadline is read again. */
  lemma {:induction false} WritesPass(db: Db, x: Txn, now: Time, n: nat)
    requires x.swept == NOTHING && x.pc + n == OPPORTUNITIES_CLOSED && x.pc >= OPERATION_MATCHED
    requires x.pc <= TRIP_INSERTED ==>
      && x.made.rides == map[]
      && x.pair.ride in db.rides && db.rides[x.pair.ride].status.RideRequested? && db.rides[x.pair.ride].expiresAt > now
    ensures AllPass(db, x, now, n)
    decreases n
  {
    if n > 0 {
      assert x.pc <= TRIP_INSERTED ==> Sees(db, x).rides == db.rides by {
        assert db.rides + map[] == db.rides;
      }
      WritesPass(db, Executed(db, x, now), now, n - 1);
    }
  }

  /** What the seven checks ask of the committed rows. */
  predicate ChecksHold(db: Db, k: Pair, rider: UserId, version: Time, now: Time) {
    && k.ride in db.rides && db.rides[k.ride].rider == rider
    && db.rides[k.ride].status.RideRequested? && db.rides[k.ride].expiresAt > now && db.rides[k.ride].fare.Some?
    && !HasTrip(db.trips, k.ride)
    && k in db.offers && db.offers[k].status.Pending? && db.offers[k].expiresAt > now && db.offers[k].updatedAt == version
    && k in db.opportunities && db.opportunities[k].status.Offered?
    && Equipped(db.fleet, k.driver, db.rides[k.ride].service) && k.driver in db.fleet.capable
    && Present(db.fleet, k.driver, now) && !HasActiveTrip(db.trips, k.driver)
    && Matches(db, k)
  }

  lemma AllPassMeans(db: Db, x: Txn, now: Time)
    requires x.swept == NOTHING && x.made == NOTHING && x.pc == SWEEPING
    ensures AllPass(db, x, now, OPPORTUNITIES_CLOSED) <==> ChecksHold(db, x.pair, x.rider, x.version, now)
  {
    hide AllPass, Executed, HasTrip, HasActiveTrip, Equipped, Matches, Sees;
    CheckStep(db, x, now, 13);
    CheckStep(db, x.(pc := RIDE_LOCKED), now, 12);
    CheckStep(db, x.(pc := TRIP_CHECKED), now, 11);
    CheckStep(db, x.(pc := OFFER_LOCKED), now, 10);
    CheckStep(db, x.(pc := OPPORTUNITY_LOCKED), now, 9);
    CheckStep(db, x.(pc := DRIVER_LOCKED), now, 8);
    CheckStep(db, x.(pc := DRIVER_ELIGIBLE), now, 7);
    if OnOpenRide(db, x, now) { WritesPass(db, x.(pc := OPERATION_MATCHED), now, 6); }
  }

  predicate OnOpenRide(db: Db, x: Txn, now: Time) {
    x.pair.ride in db.rides && db.rides[x.pair.ride].status.RideRequested? && db.rides[x.pair.ride].expiresAt > now
  }

  // ---- The theorem ----

  lemma SelectsSwept(s: State, now: Time, k: Pair, rider: UserId, version: Time)
    ensures SelectOffer(s, now, k, rider, version).result.Ok? <==> SelectRefusal(s, now, k, rider, version).None?
  {
    hide Settle, Equipped, Present, Busy;
    M.SweptFrame(s, now);
    M.SweepKeepsOpenRide(s, now, k);
    if k.ride in s.rides { M.SweptRide(s, now, k.ride); }
    if k in s.offers { M.SweptOffer(s, now, k); }
    if k in s.opportunities { M.SweptOpportunity(s, now, k); }
  }

  lemma ChecksAreSelection(db: Db, k: Pair, rider: UserId, version: Time, now: Time, policy: TimingPolicy)
    requires OneTripPerRide(db.trips) && OffersToOthers(db)
    ensures ChecksHold(db, k, rider, version, now)
       <==> SelectOffer(Snapshot(db, policy), now, k, rider, version).result.Ok?
  {
    hide HasTrip, HasActiveTrip, TripTable, Busy, Equipped, Present, Settle, SelectOffer;
    SelectsSwept(Snapshot(db, policy), now, k, rider, version);
    TripTableRows(db.trips);
    BusyTable(db.trips, k.driver);
  }

  /**
   * With nobody in the way, an assignment runs to its commit exactly when the atomic selection succeeds on the
   * committed rows, and then replies the same trip and leaves tables that mean the same.
   */
  lemma UncontendedSelectionCommits(s: System, t: TxnId, k: Pair, rider: UserId, version: Time, policy: TimingPolicy)
    requires RefinementInv(s) && t !in s.txns && Uncontended(s, t, k)
    ensures var atomic := SelectOffer(Snapshot(s.db, policy), s.now, k, rider, version);
      && (Schedule(s, Solo(t, k, rider, version)) <==> atomic.result.Ok?)
      && (Schedule(s, Solo(t, k, rider, version)) ==>
            var y := Snapshot(Outcome(s, Solo(t, k, rider, version)).db, policy);
            && k.ride in y.trips && atomic.result == Ok(y.trips[k.ride])
            && Live(y, s.now) == Live(atomic.state, s.now))
  {
    hide RefinementInv, Advances, AllPass, ChecksHold, Snapshot, SelectOffer, Live, RideLocks, OfferLocks,
         OpportunityLocks, ProfileLocks, RespectsLocks, Granted;
    var run := Advances(t, OPPORTUNITIES_CLOSED);
    var begin := Begin(t, k, rider, version);
    assert Solo(t, k, rider, version)[0] == begin && Solo(t, k, rider, version)[1..] == run;
    var y := Act(s, begin);
    ActKeepsRefinementInv(s, begin);
    AllPassMeans(s.db, y.txns[t], s.now);
    SelectionInv(s);
    ChecksAreSelection(s.db, k, rider, version, s.now, policy);
    var z := AdvancesCommit(y, t, OPPORTUNITIES_CLOSED);
    if Schedule(s, Solo(t, k, rider, version)) {
      ChecksAreGood(s.db, z.txns[t], s.now);
      CommitRefinesAtomicSelection(z, t, s.now, policy);
      CommittedNow(z, t, s.now, policy);
      UnsweptBasis(s.db, z.txns[t]);
    }
  }

  lemma SelectionInv(s: System)
    requires RefinementInv(s)
    ensures OneTripPerRide(s.db.trips) && OffersToOthers(s.db)
  {
  }

  lemma UnsweptBasis(db: Db, x: Txn)
    requires x.swept == NOTHING
    ensures Basis(db, x) == db
  {
    assert db.rides + map[] == db.rides && db.offers + map[] == db.offers;
    assert db.opportunities + map[] == db.opportunities && db.trips + [] == db.trips;
  }

  lemma ChecksAreGood(db: Db, x: Txn, now: Time)
    requires x.swept == NOTHING && ChecksHold(db, x.pair, x.rider, x.version, now)
    ensures StillGood(db, x, now)
  {
    hide Basis;
    UnsweptBasis(db, x);
  }

  lemma CommittedOfferNow(db: Db, x: Txn, now: Time)
    requires WritesFit(db, x) && x.pc == OPPORTUNITIES_CLOSED && MadeAt(x.made, now)
    ensures x.pair in Sees(db, x).offers
    ensures Sees(db, x).offers[x.pair].decidedAt == Some(now) && Sees(db, x).offers[x.pair].updatedAt == now
  {
    hide Basis;
  }

  lemma CommittedTripNow(db: Db, x: Txn, now: Time)
    requires StillHolds(db, x) && WritesFit(db, x) && x.pc == OPPORTUNITIES_CLOSED && MadeAt(x.made, now)
    ensures x.pair.ride in TripTable(Sees(db, x).trips) && TripTable(Sees(db, x).trips)[x.pair.ride].assignedAt == now
  {
    hide Sees, Basis, HasTrip, HasActiveTrip, Equipped, Matches;
    CommittedRide(db, x);
    assert x.made.trips == [x.made.trips[0]];
    assert (db.trips + [x.made.trips[0]])[..|db.trips|] == db.trips;
  }

  /** Decided and assigned at the one instant there was. */
  lemma CommittedNow(s: System, t: TxnId, now: Time, policy: TimingPolicy)
    requires RefinementInv(s) && Allowed(s, Commit(t)) && MadeAt(s.txns[t].made, now)
    ensures var x, y := s.txns[t], Snapshot(Act(s, Commit(t)).db, policy);
      && x.pair in y.offers && x.pair.ride in y.trips && Retimed(y, x.pair, now) == y
  {
    hide WritesExact, OffersToOthers, Exclusive, OneTripPerRide, OneActiveTripPerDriver, StillHolds, WritesFit, Sees,
         TripTable;
    var x, y := s.txns[t], Snapshot(Act(s, Commit(t)).db, policy);
    TxnOf(s, t);
    CommittedOfferNow(s.db, x, now);
    CommittedTripNow(s.db, x, now);
    assert y.offers[x.pair := y.offers[x.pair]] == y.offers;
    assert y.trips[x.pair.ride := y.trips[x.pair.ride]] == y.trips;
  }
}
