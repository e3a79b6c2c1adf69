/**
 * Any number of assignments in flight at once, statement by statement. Each statement reads the latest
 * committed rows under the transaction's own writes, row locks are held until the end, and writes appear at
 * commit. The trips table is a plain list of rows: nothing here assumes a unique key.
 */
module Interleaving {
  import opened Base
  import opened MarketState
  import opened Expiry
  import opened Transactions
  import opened Evolution

  datatype TripRow = TripRow(ride: RideId, trip: Trip)

  datatype Db = Db(
    rides: map<RideId, Ride>, offers: map<Pair, Offer>, opportunities: map<Pair, Opportunity>,
    trips: seq<TripRow>, fleet: Fleet)

  /** Uncommitted rows of one transaction. */
  datatype Writes = Writes(
    rides: map<RideId, Ride>, offers: map<Pair, Offer>, opportunities: map<Pair, Opportunity>, trips: seq<TripRow>)

  const NOTHING := Writes(map[], map[], map[], [])

  function Overlay(db: Db, w: Writes): Db {
    db.(rides := db.rides + w.rides, offers := db.offers + w.offers,
        opportunities := db.opportunities + w.opportunities, trips := db.trips + w.trips)
  }

  // ---- Program counters: the last statement that completed ----

  const SWEEPING: nat := 0
  const RIDE_LOCKED: nat := 1
  const TRIP_CHECKED: nat := 2
  const OFFER_LOCKED: nat := 3
  const OPPORTUNITY_LOCKED: nat := 4
  const DRIVER_LOCKED: nat := 5
  const DRIVER_ELIGIBLE: nat := 6
  const OPERATION_MATCHED: nat := 7
  const OFFER_ACCEPTED: nat := 8
  const OPPORTUNITY_ACCEPTED: nat := 9
  const TRIP_INSERTED: nat := 10
  const RIDE_MARKED: nat := 11
  const OFFERS_CLOSED: nat := 12
  const OPPORTUNITIES_CLOSED: nat := 13

  /** An assignment in flight: what it was asked, what its sweep wrote, and what it wrote after that. */
  datatype Txn = Txn(pair: Pair, rider: UserId, version: Time, pc: nat, swept: Writes, made: Writes)

  type TxnId = nat
  datatype System = System(db: Db, now: Time, txns: map<TxnId, Txn>)

  /** The committed rows as the transaction's own sweep left them. */
  function Basis(db: Db, x: Txn): (b: Db)
    ensures b.fleet == db.fleet
  {
    Overlay(db, x.swept)
  }

  function Sees(db: Db, x: Txn): Db {
    Overlay(Basis(db, x), x.made)
  }

  // ---- Row locks, all exclusive, held from the locking or writing statement to the end ----

  function RideLocks(x: Txn): set<RideId> {
    x.swept.rides.Keys + x.made.rides.Keys + if x.pc >= RIDE_LOCKED then {x.pair.ride} else {}
  }

  function OfferLocks(x: Txn): set<Pair> {
    x.swept.offers.Keys + x.made.offers.Keys + if x.pc >= OFFER_LOCKED then {x.pair} else {}
  }

  function OpportunityLocks(x: Txn): set<Pair> {
    x.swept.opportunities.Keys + x.made.opportunities.Keys + if x.pc >= OPPORTUNITY_LOCKED then {x.pair} else {}
  }

  function ProfileLocks(x: Txn): set<UserId> {
    if x.pc >= DRIVER_LOCKED then {x.pair.driver} else {}
  }

  predicate Disjoint(x: Txn, y: Txn) {
    && RideLocks(x) !! RideLocks(y)
    && OfferLocks(x) !! OfferLocks(y)
    && OpportunityLocks(x) !! OpportunityLocks(y)
    && ProfileLocks(x) !! ProfileLocks(y)
  }

  ghost predicate Exclusive(s: System) {
    forall t, u | t in s.txns && u in s.txns && t != u :: Disjoint(s.txns[t], s.txns[u])
  }

  /** The new locks of t conflict with nobody: otherwise the statement waits. */
  ghost predicate Granted(s: System, t: TxnId, x: Txn) {
    forall u | u in s.txns && u != t :: Disjoint(x, s.txns[u])
  }

  // ---- Statements ----

  predicate HasActiveTrip(trips: seq<TripRow>, d: UserId) {
    exists i | 0 <= i < |trips| :: trips[i].trip.driver == d && ActiveTrip(trips[i].trip)
  }

  predicate HasTrip(trips: seq<TripRow>, r: RideId) {
    exists i | 0 <= i < |trips| :: trips[i].ride == r
  }

  /** The condition that the statement after x.pc checks on what it sees, at its own instant. */
  predicate Passes(db: Db, x: Txn, now: Time) {
    var v := Sees(db, x);
    var k := x.pair;
    if x.pc == SWEEPING then
      && k.ride in v.rides && v.rides[k.ride].rider == x.rider
      && v.rides[k.ride].status.RideRequested? && v.rides[k.ride].expiresAt > now && v.rides[k.ride].fare.Some?
    else if x.pc == RIDE_LOCKED then
      !HasTrip(v.trips, k.ride)
    else if x.pc == TRIP_CHECKED then
      && k in v.offers && v.offers[k].status.Pending? && v.offers[k].expiresAt > now
      && v.offers[k].updatedAt == x.version
    else if x.pc == OFFER_LOCKED then
      k in v.opportunities && v.opportunities[k].status.Offered?
    else if x.pc == OPPORTUNITY_LOCKED then
      k.ride in v.rides && JoinsDriver(v.fleet, k.driver, v.rides[k.ride].service)
    else if x.pc == DRIVER_LOCKED then
      && k.ride in v.rides && Equipped(v.fleet, k.driver, v.rides[k.ride].service) && k.driver in v.fleet.capable
      && Present(v.fleet, k.driver, now) && !HasActiveTrip(v.trips, k.driver)
    else if x.pc == DRIVER_ELIGIBLE then
      Matches(v, k)
    else if x.pc == TRIP_INSERTED then
      k.ride in v.rides && v.rides[k.ride].status.RideRequested? && v.rides[k.ride].expiresAt > now
    else
      x.pc < OPPORTUNITIES_CLOSED
  }

  predicate JoinsDriver(f: Fleet, d: UserId, service: ServiceCode) {
    Equipped(f, d, service) && d in f.capable && d in f.positions
  }

  predicate Matches(v: Db, k: Pair) {
    && k in v.offers && k.ride in v.rides && k.driver in v.fleet.selections
    && var service := v.rides[k.ride].service;
    && Enrollment(v.fleet.selections[k.driver], service) in v.fleet.enrollments
    && service in v.fleet.catalog && v.fleet.catalog[service].active
    && v.offers[k].context.vehicle == v.fleet.selections[k.driver]
    && v.offers[k].context.service == service
  }

  function Competing<T>(rows: map<Pair, T>, k: Pair, closable: T -> bool): set<Pair> {
    set j | j in rows && j.ride == k.ride && j.driver != k.driver && closable(rows[j])
  }

  function ClosedOffers(v: Db, k: Pair, now: Time): map<Pair, Offer> {
    map j | j in Competing(v.offers, k, (o: Offer) => o.status.Pending?) ::
      DecideOffer(v.offers[j], OfferClosed, now)
  }

  function ClosedOpportunities(v: Db, k: Pair, now: Time): map<Pair, Opportunity> {
    map j | j in Competing(v.opportunities, k, (o: Opportunity) => o.status.Open? || o.status.Offered?) ::
      CloseOpportunity(v.opportunities[j], now)
  }

  /** The transaction after its next statement, at the statement's own instant. */
  function Executed(db: Db, x: Txn, now: Time): Txn {
    var v := Sees(db, x);
    var k := x.pair;
    var w := x.made;
    var y := x.(pc := x.pc + 1);
    if x.pc == OPERATION_MATCHED && k in v.offers then
      y.(made := w.(offers := w.offers[k := DecideOffer(v.offers[k], OfferAccepted, now)]))
    else if x.pc == OFFER_ACCEPTED && k in v.opportunities && v.opportunities[k].status.Offered? then
      y.(made := w.(opportunities := w.opportunities[k := v.opportunities[k].(status := OpportunityAccepted)]))
    else if x.pc == OPPORTUNITY_ACCEPTED && k in v.offers then
      y.(made := w.(trips := w.trips + [TripRow(k.ride, NewTrip(x.rider, k.driver, now, v.offers[k].context))]))
    else if x.pc == TRIP_INSERTED && k.ride in v.rides then
      y.(made := w.(rides := w.rides[k.ride := v.rides[k.ride].(status := RideAccepted)]))
    else if x.pc == RIDE_MARKED then
      y.(made := w.(offers := w.offers + ClosedOffers(v, k, now)))
    else if x.pc == OFFERS_CLOSED then
      y.(made := w.(opportunities := w.opportunities + ClosedOpportunities(v, k, now)))
    else y
  }

  // ---- Actions ----

  datatype Action =
    | Begin(t: TxnId, pair: Pair, rider: UserId, version: Time)
    | SweepRide(t: TxnId, ride: RideId)
    | SweepOffer(t: TxnId, pair: Pair, offerLabel: OfferStatus)
    | SweepOpportunity(t: TxnId, pair: Pair, windowLabel: OpportunityStatus)
    | Advance(t: TxnId)
    | Rollback(t: TxnId)
    | Commit(t: TxnId)
    | Elsewhere(db: Db, now: Time)

  /** A transaction that sweeps one more row: only overdue or closed rows, only to a dead label. */
  function Sweeping(db: Db, x: Txn, a: Action, now: Time): Option<Txn> {
    var v := Basis(db, x);
    if x.pc != SWEEPING then None
    else match a
      case SweepRide(_, r) =>
        if r in v.rides && v.rides[r].status.RideRequested? && v.rides[r].expiresAt <= now && !HasTrip(v.trips, r)
        then Some(x.(swept := x.swept.(rides := x.swept.rides[r := v.rides[r].(status := RideExpired)])))
        else None
      case SweepOffer(_, k, dead) =>
        if k in v.offers && v.offers[k].status.Pending? && (dead.Expired? || dead.OfferClosed?)
           && (v.offers[k].expiresAt <= now || RideClosed(v.rides, k.ride))
        then Some(x.(swept := x.swept.(offers := x.swept.offers[k := DecideOffer(v.offers[k], dead, now)])))
        else None
      case SweepOpportunity(_, k, dead) =>
        if k in v.opportunities && (v.opportunities[k].status.Open? || v.opportunities[k].status.Offered?)
           && (dead.WindowExpired? || dead.OfferExpired? || dead.OpportunityClosed?)
        then Some(x.(swept := x.swept.(opportunities := x.swept.opportunities[k :=
               v.opportunities[k].(status := dead, respondedAt := Responded(v.opportunities[k], now))])))
        else None
      case _ => None
  }

  /** Everything else in the database changes only rows that no assignment in flight has locked. */
  ghost predicate RespectsLocks(db: Db, e: Db, x: Txn) {
    && (forall r | r in RideLocks(x) && r in db.rides :: r in e.rides && e.rides[r] == db.rides[r])
    && (forall k | k in OfferLocks(x) && k in db.offers :: k in e.offers && e.offers[k] == db.offers[k])
    && (forall k | k in OpportunityLocks(x) && k in db.opportunities ::
          k in e.opportunities && e.opportunities[k] == db.opportunities[k])
    && (x.pc >= RIDE_LOCKED ==> forall k | k in e.offers && k.ride == x.pair.ride :: k in db.offers)
    && (x.pc >= DRIVER_LOCKED && x.pair.ride in Basis(db, x).rides ==>
          Pinned(db.fleet, e.fleet, x.pair.driver, Basis(db, x).rides[x.pair.ride].service))
  }

  /** The rows that the driver lock holds: the profile exclusively, the joined rows shared. */
  predicate Pinned(f: Fleet, g: Fleet, d: UserId, service: ServiceCode) {
    && (d in f.profiles ==> d in g.profiles && g.profiles[d] == f.profiles[d])
    && (d in f.selections ==> d in g.selections && g.selections[d] == f.selections[d])
    && (d in f.selections && f.selections[d] in f.vehicles ==>
          f.selections[d] in g.vehicles && g.vehicles[f.selections[d]] == f.vehicles[f.selections[d]])
    && (d in f.selections && Enrollment(f.selections[d], service) in f.enrollments ==>
          Enrollment(f.selections[d], service) in g.enrollments)
    && (service in f.catalog ==> service in g.catalog && g.catalog[service] == f.catalog[service])
    && (d in f.capable ==> d in g.capable)
    && (d in f.positions ==> d in g.positions && g.positions[d] == f.positions[d])
  }

  /** No other transaction inserts a trip, and rows only move forward. */
  ghost predicate MovesForward(db: Db, e: Db) {
    && RidesEvolve(db.rides, e.rides) && OffersEvolve(db.offers, e.offers)
    && OpportunitiesEvolve(db.opportunities, e.opportunities)
    && |e.trips| == |db.trips|
    && forall i | 0 <= i < |db.trips| ::
         e.trips[i].ride == db.trips[i].ride && TripEvolves(db.trips[i].trip, e.trips[i].trip)
  }

  ghost predicate Allowed(s: System, a: Action) {
    match a
    case Begin(t, _, _, _) => t !in s.txns
    case Advance(t) =>
      && t in s.txns && s.txns[t].pc < OPPORTUNITIES_CLOSED
      && (Passes(s.db, s.txns[t], s.now) ==> Granted(s, t, Executed(s.db, s.txns[t], s.now)))
    case Rollback(t) => t in s.txns
    case Commit(t) => t in s.txns && s.txns[t].pc == OPPORTUNITIES_CLOSED
    case Elsewhere(e, now) =>
      s.now <= now && MovesForward(s.db, e) && forall t | t in s.txns :: RespectsLocks(s.db, e, s.txns[t])
    case _ =>
      && a.t in s.txns && Sweeping(s.db, s.txns[a.t], a, s.now).Some?
      && Granted(s, a.t, Sweeping(s.db, s.txns[a.t], a, s.now).value)
  }

  /** A statement whose check fails rolls its transaction back. */
  function Act(s: System, a: Action): System
    requires Allowed(s, a)
  {
    match a
    case Begin(t, k, rider, version) => s.(txns := s.txns[t := Txn(k, rider, version, SWEEPING, NOTHING, NOTHING)])
    case Advance(t) =>
      if Passes(s.db, s.txns[t], s.now) then s.(txns := s.txns[t := Executed(s.db, s.txns[t], s.now)])
      else s.(txns := s.txns - {t})
    case Rollback(t) => s.(txns := s.txns - {t})
    case Commit(t) => s.(db := Sees(s.db, s.txns[t]), txns := s.txns - {t})
    case Elsewhere(e, now) => s.(db := e, now := now)
    case _ => s.(txns := s.txns[a.t := Sweeping(s.db, s.txns[a.t], a, s.now).value])
  }

  // ---- What holds in every reachable system ----

  ghost predicate OneTripPerRide(trips: seq<TripRow>) {
    forall i, j | 0 <= i < j < |trips| :: trips[i].ride != trips[j].ride
  }

  ghost predicate OneActiveTripPerDriver(trips: seq<TripRow>) {
    forall i, j | 0 <= i < j < |trips| && trips[i].trip.driver == trips[j].trip.driver ::
      !(ActiveTrip(trips[i].trip) && ActiveTrip(trips[j].trip))
  }

  /** Every check already made still holds of the committed rows under the transaction's own sweep. */
  predicate StillHolds(db: Db, x: Txn) {
    var b := Basis(db, x);
    var k := x.pair;
    && (x.pc >= RIDE_LOCKED ==>
          && k.ride in b.rides && b.rides[k.ride].rider == x.rider
          && b.rides[k.ride].status.RideRequested? && b.rides[k.ride].fare.Some?)
    && (x.pc >= TRIP_CHECKED ==> !HasTrip(db.trips, k.ride))
    && (x.pc >= OFFER_LOCKED ==>
          k in b.offers && b.offers[k].status.Pending? && b.offers[k].updatedAt == x.version)
    && (x.pc >= OPPORTUNITY_LOCKED ==> k in b.opportunities && b.opportunities[k].status.Offered?)
    && (x.pc >= DRIVER_ELIGIBLE ==>
          && Equipped(db.fleet, k.driver, b.rides[k.ride].service) && k.driver in db.fleet.capable
          && db.fleet.profiles[k.driver].status.Active? && db.fleet.profiles[k.driver].online
          && k.driver in db.fleet.positions
          && !HasActiveTrip(db.trips, k.driver))
    && (x.pc >= OPERATION_MATCHED ==> Matches(b, k))
  }

  /** What the transaction has written so far. */
  ghost predicate WritesFit(db: Db, x: Txn) {
    var k := x.pair;
    && x.pc <= OPPORTUNITIES_CLOSED
    && x.swept.trips == []
    && (forall j | j in x.swept.offers :: !x.swept.offers[j].status.Pending?)
    && (x.pc <= OPERATION_MATCHED ==> x.made == NOTHING)
    && (forall j | j in x.made.offers :: j.ride == k.ride)
    && (x.pc >= OFFER_ACCEPTED ==>
          && k in x.made.offers && x.made.offers[k].status.OfferAccepted?
          && k in Basis(db, x).offers && x.made.offers[k].context == Basis(db, x).offers[k].context)
    && (forall j | j in x.made.opportunities :: j.ride == k.ride)
    && (x.pc >= OPPORTUNITY_ACCEPTED ==> k in x.made.opportunities && x.made.opportunities[k].status.OpportunityAccepted?)
    && (x.pc < OPPORTUNITY_ACCEPTED ==> x.made.opportunities == map[])
    && (x.pc < TRIP_INSERTED ==> x.made.trips == [])
    && (x.pc >= TRIP_INSERTED ==>
          && |x.made.trips| == 1 && x.made.trips[0].ride == k.ride
          && x.made.trips[0].trip.driver == k.driver && ActiveTrip(x.made.trips[0].trip)
          && k in Basis(db, x).offers && x.made.trips[0].trip.context == Basis(db, x).offers[k].context)
    && (x.pc < RIDE_MARKED ==> x.made.rides == map[])
    && (x.pc >= RIDE_MARKED ==> x.made.rides.Keys == {k.ride} && x.made.rides[k.ride].status.RideAccepted?)
    && (forall j | j in x.made.offers && j != k :: x.made.offers[j].status.OfferClosed?)
    && (x.pc >= OFFERS_CLOSED ==>
          forall j | j in Basis(db, x).offers && j.ride == k.ride && j != k && Basis(db, x).offers[j].status.Pending? ::
            j in x.made.offers)
  }

  ghost predicate SystemInv(s: System) {
    && OneTripPerRide(s.db.trips) && OneActiveTripPerDriver(s.db.trips)
    && Exclusive(s)
    && forall t | t in s.txns :: StillHolds(s.db, s.txns[t]) && WritesFit(s.db, s.txns[t])
  }

  // ---- One transaction under the steps of others ----

  lemma SeesBasis(db: Db, x: Txn)
    requires x.made == NOTHING
    ensures Sees(db, x) == Basis(db, x)
  {
    var b := Basis(db, x);
    assert b.rides + x.made.rides == b.rides && b.offers + x.made.offers == b.offers;
    assert b.opportunities + x.made.opportunities == b.opportunities && b.trips + x.made.trips == b.trips;
  }

  lemma TripsMoveForward(db: Db, e: Db, r: RideId, d: UserId)
    requires MovesForward(db, e)
    ensures HasTrip(e.trips, r) <==> HasTrip(db.trips, r)
    ensures HasActiveTrip(e.trips, d) ==> HasActiveTrip(db.trips, d)
  {
    if HasActiveTrip(e.trips, d) {
      var i :| 0 <= i < |e.trips| && e.trips[i].trip.driver == d && ActiveTrip(e.trips[i].trip);
      assert TripEvolves(db.trips[i].trip, e.trips[i].trip);
    }
    if HasTrip(e.trips, r) {
      var i :| 0 <= i < |e.trips| && e.trips[i].ride == r;
      assert db.trips[i].ride == r;
    }
    if HasTrip(db.trips, r) {
      var i :| 0 <= i < |db.trips| && db.trips[i].ride == r;
      assert e.trips[i].ride == r;
    }
  }

  /** Locked rows read the same before and after somebody else's step. */
  ghost predicate SameLockedRows(db: Db, e: Db, x: Txn) {
    var b, c, k := Basis(db, x), Basis(e, x), x.pair;
    && (x.pc >= RIDE_LOCKED && k.ride in b.rides ==> k.ride in c.rides && c.rides[k.ride] == b.rides[k.ride])
    && (x.pc >= OFFER_LOCKED && k in b.offers ==> k in c.offers && c.offers[k] == b.offers[k])
    && (x.pc >= OPPORTUNITY_LOCKED && k in b.opportunities ==>
          k in c.opportunities && c.opportunities[k] == b.opportunities[k])
    && (x.pc >= DRIVER_LOCKED && k.ride in b.rides ==>
          Pinned(db.fleet, e.fleet, k.driver, b.rides[k.ride].service))
    && (x.pc >= RIDE_LOCKED ==>
          forall j | j in c.offers && j.ride == k.ride && c.offers[j].status.Pending? ::
            j in b.offers && b.offers[j].status.Pending?)
  }

  lemma ChecksSurvive(db: Db, e: Db, x: Txn)
    requires StillHolds(db, x) && WritesFit(db, x) && SameLockedRows(db, e, x)
    requires x.pc >= TRIP_CHECKED ==> !HasTrip(e.trips, x.pair.ride)
    requires x.pc >= DRIVER_ELIGIBLE ==> !HasActiveTrip(e.trips, x.pair.driver)
    ensures StillHolds(e, x) && WritesFit(e, x)
  {
    hide HasTrip, HasActiveTrip, Basis;
  }

  lemma ElsewhereKeepsTxn(db: Db, e: Db, x: Txn)
    requires StillHolds(db, x) && WritesFit(db, x) && RespectsLocks(db, e, x) && MovesForward(db, e)
    ensures StillHolds(e, x) && WritesFit(e, x)
  {
    hide StillHolds, WritesFit, HasTrip, HasActiveTrip, MovesForward, RespectsLocks, SameLockedRows;
    TripsMoveForward(db, e, x.pair.ride, x.pair.driver);
    LockedRowsRespected(db, e, x);
    ChecksNeedTrips(db, x);
    ChecksSurvive(db, e, x);
  }

  lemma LockedRowsRespected(db: Db, e: Db, x: Txn)
    requires RespectsLocks(db, e, x) && MovesForward(db, e)
    ensures SameLockedRows(db, e, x)
  {
    hide RidesEvolve, OpportunitiesEvolve, OffersEvolve, TripEvolves, Pinned;
    forall j | x.pc >= RIDE_LOCKED && j in e.offers && j.ride == x.pair.ride && e.offers[j].status.Pending?
      ensures j in db.offers && db.offers[j].status.Pending?
    {
      PendingWasPending(db.offers, e.offers, j);
    }
  }

  lemma PendingWasPending(a: map<Pair, Offer>, b: map<Pair, Offer>, j: Pair)
    requires OffersEvolve(a, b) && j in a && j in b && b[j].status.Pending?
    ensures a[j].status.Pending?
  {
    assert OfferEvolves(a[j], b[j]);
  }

  lemma ChecksNeedTrips(db: Db, x: Txn)
    requires StillHolds(db, x)
    ensures x.pc >= TRIP_CHECKED ==> !HasTrip(db.trips, x.pair.ride)
    ensures x.pc >= DRIVER_ELIGIBLE ==> !HasActiveTrip(db.trips, x.pair.driver)
  {
  }

  /** What x commits leaves every check that y has made intact. */
  lemma CommitKeepsOther(db: Db, x: Txn, y: Txn)
    requires StillHolds(db, x) && WritesFit(db, x) && x.pc == OPPORTUNITIES_CLOSED
    requires StillHolds(db, y) && WritesFit(db, y) && Disjoint(x, y)
    ensures StillHolds(Sees(db, x), y) && WritesFit(Sees(db, x), y)
  {
    hide StillHolds, HasTrip, HasActiveTrip, Pinned;
    var e := Sees(db, x);
    ChecksNeedTrips(db, y);
    CommittedTrips(db, x, y.pair);
    assert x.pair.ride in RideLocks(x);
    assert SameLockedRows(db, e, y) by { CommittedRows(db, x, y); }
    ChecksSurvive(db, e, y);
  }

  lemma CommittedTrips(db: Db, x: Txn, k: Pair)
    requires WritesFit(db, x) && x.pc == OPPORTUNITIES_CLOSED
    ensures HasTrip(Sees(db, x).trips, k.ride) <==> HasTrip(db.trips, k.ride) || k.ride == x.pair.ride
    ensures HasActiveTrip(Sees(db, x).trips, k.driver) <==> HasActiveTrip(db.trips, k.driver) || k.driver == x.pair.driver
  {
    hide HasTrip, HasActiveTrip, WritesFit, Sees;
    TripAppended(db, x);
    AppendedTrip(db.trips, x.made.trips[0], k);
  }

  lemma AppendedTrip(trips: seq<TripRow>, row: TripRow, k: Pair)
    ensures HasTrip(trips + [row], k.ride) <==> HasTrip(trips, k.ride) || k.ride == row.ride
    ensures HasActiveTrip(trips + [row], k.driver)
       <==> HasActiveTrip(trips, k.driver) || (k.driver == row.trip.driver && ActiveTrip(row.trip))
  {
    assert (trips + [row])[|trips|] == row;
    assert forall i | 0 <= i < |trips| :: (trips + [row])[i] == trips[i];
  }

  lemma UntouchedRow<K, V>(rows: map<K, V>, swept: map<K, V>, made: map<K, V>, own: map<K, V>, k: K)
    requires k !in swept && k !in made
    ensures k in rows + own <==> k in rows + swept + made + own
    ensures k in rows + own ==> (rows + swept + made + own)[k] == (rows + own)[k]
  {
  }

  /** A pending offer on y's ride after x commits was there and pending before. */
  lemma NoNewPendingOffer(db: Db, x: Txn, y: Txn, j: Pair)
    requires WritesFit(db, x) && j !in x.made.offers
    requires j in Basis(Sees(db, x), y).offers && Basis(Sees(db, x), y).offers[j].status.Pending?
    ensures j in Basis(db, y).offers && Basis(db, y).offers[j].status.Pending?
  {
  }

  lemma CommittedRows(db: Db, x: Txn, y: Txn)
    requires WritesFit(db, x) && x.pc == OPPORTUNITIES_CLOSED && Disjoint(x, y)
    ensures SameLockedRows(db, Sees(db, x), y)
  {
    hide WritesFit;
    var k := y.pair;
    if y.pc >= RIDE_LOCKED {
      assert k.ride in RideLocks(y) && x.pair.ride in RideLocks(x);
      UntouchedRow(db.rides, x.swept.rides, x.made.rides, y.swept.rides, k.ride);
      forall j | j in Basis(Sees(db, x), y).offers && j.ride == k.ride && Basis(Sees(db, x), y).offers[j].status.Pending?
        ensures j in Basis(db, y).offers && Basis(db, y).offers[j].status.Pending?
      {
        OwnRideOnly(db, x, j);
        NoNewPendingOffer(db, x, y, j);
      }
    }
    if y.pc >= OFFER_LOCKED {
      assert k in OfferLocks(y);
      UntouchedRow(db.offers, x.swept.offers, x.made.offers, y.swept.offers, k);
    }
    if y.pc >= OPPORTUNITY_LOCKED {
      assert k in OpportunityLocks(y);
      UntouchedRow(db.opportunities, x.swept.opportunities, x.made.opportunities, y.swept.opportunities, k);
    }
  }

  lemma OwnRideOnly(db: Db, x: Txn, j: Pair)
    requires WritesFit(db, x)
    ensures j in x.made.offers ==> j.ride == x.pair.ride
  {
  }

  // ---- One transaction under its own statements ----

  /** The checks, up to the operation match, are made before anything but the sweep is written. */
  lemma CheckKeepsTxn(db: Db, x: Txn, now: Time)
    requires StillHolds(db, x) && WritesFit(db, x) && Passes(db, x, now) && x.pc < OPERATION_MATCHED
    ensures StillHolds(db, Executed(db, x, now)) && WritesFit(db, Executed(db, x, now))
  {
    hide HasTrip, HasActiveTrip, Equipped, Present, Basis, Sees;
    SeesBasis(db, x);
    assert Executed(db, x, now) == x.(pc := x.pc + 1);
    assert Basis(db, x).trips == db.trips by { SweptNoTrips(db, x); }
    CheckAddsFact(db, x, now);
  }

  lemma SweptNoTrips(db: Db, x: Txn)
    requires x.swept.trips == []
    ensures Basis(db, x).trips == db.trips
  {
  }

  lemma CheckAddsFact(db: Db, x: Txn, now: Time)
    requires StillHolds(db, x) && Passes(db, x, now) && x.pc < OPERATION_MATCHED
    requires Sees(db, x) == Basis(db, x) && Basis(db, x).trips == db.trips
    ensures StillHolds(db, x.(pc := x.pc + 1))
  {
    hide HasTrip, HasActiveTrip, Overlay;
  }

  lemma WriteKeepsChecks(db: Db, x: Txn, now: Time)
    requires StillHolds(db, x) && OPERATION_MATCHED <= x.pc
    ensures var y := Executed(db, x, now);
            StillHolds(db, y) && y.pair == x.pair && y.swept == x.swept && y.pc == x.pc + 1
  {
    hide HasTrip, HasActiveTrip, Matches, Equipped, ClosedOffers, ClosedOpportunities, Overlay, Sees;
  }

  /** Rows under the transaction's own writes: its own value where it has written, the basis elsewhere. */
  lemma OwnRows(db: Db, x: Txn, k: Pair)
    ensures k in Sees(db, x).offers <==> k in Basis(db, x).offers || k in x.made.offers
    ensures k in Sees(db, x).offers ==>
      Sees(db, x).offers[k] == if k in x.made.offers then x.made.offers[k] else Basis(db, x).offers[k]
    ensures k in Sees(db, x).opportunities <==> k in Basis(db, x).opportunities || k in x.made.opportunities
    ensures k in Sees(db, x).opportunities ==>
      Sees(db, x).opportunities[k]
      == if k in x.made.opportunities then x.made.opportunities[k] else Basis(db, x).opportunities[k]
    ensures x.made.rides == map[] ==> Sees(db, x).rides == Basis(db, x).rides
  {
    hide Basis;
    assert x.made.rides == map[] ==> Basis(db, x).rides + x.made.rides == Basis(db, x).rides;
  }

  lemma AcceptingFits(db: Db, x: Txn, now: Time)
    requires StillHolds(db, x) && WritesFit(db, x) && (x.pc == OPERATION_MATCHED || x.pc == OFFER_ACCEPTED)
    ensures WritesFit(db, Executed(db, x, now))
  {
    hide HasTrip, HasActiveTrip, Matches, Equipped, Overlay, Sees;
    OwnRows(db, x, x.pair);
  }

  lemma InsertingFits(db: Db, x: Txn, now: Time)
    requires StillHolds(db, x) && WritesFit(db, x) && (x.pc == OPPORTUNITY_ACCEPTED || x.pc == TRIP_INSERTED)
    ensures WritesFit(db, Executed(db, x, now))
  {
    hide HasTrip, HasActiveTrip, Matches, Equipped, Overlay, Sees;
    OwnRows(db, x, x.pair);
  }

  lemma ClosingOffersFits(db: Db, x: Txn, now: Time)
    requires StillHolds(db, x) && WritesFit(db, x) && x.pc == RIDE_MARKED
    ensures WritesFit(db, Executed(db, x, now))
  {
    hide StillHolds, HasTrip, HasActiveTrip, Matches, Equipped, Overlay, Sees;
    forall j { OwnRows(db, x, j); }
    var closed := ClosedOffers(Sees(db, x), x.pair, now);
    assert x.pair !in closed;
    assert forall j | j in closed :: j.ride == x.pair.ride && closed[j].status.OfferClosed?;
  }

  lemma ClosingOpportunitiesFits(db: Db, x: Txn, now: Time)
    requires StillHolds(db, x) && WritesFit(db, x) && x.pc == OFFERS_CLOSED
    ensures WritesFit(db, Executed(db, x, now))
  {
    hide StillHolds, HasTrip, HasActiveTrip, Matches, Equipped, Overlay, Sees;
    var closed := ClosedOpportunities(Sees(db, x), x.pair, now);
    assert x.pair !in closed;
    assert forall j | j in closed :: j.ride == x.pair.ride;
  }

  lemma WriteKeepsTxn(db: Db, x: Txn, now: Time)
    requires StillHolds(db, x) && WritesFit(db, x) && OPERATION_MATCHED <= x.pc < OPPORTUNITIES_CLOSED
    ensures StillHolds(db, Executed(db, x, now)) && WritesFit(db, Executed(db, x, now))
  {
    hide StillHolds, WritesFit, Executed;
    WriteKeepsChecks(db, x, now);
    if x.pc <= OFFER_ACCEPTED { AcceptingFits(db, x, now); }
    else if x.pc <= TRIP_INSERTED { InsertingFits(db, x, now); }
    else if x.pc == RIDE_MARKED { ClosingOffersFits(db, x, now); }
    else { ClosingOpportunitiesFits(db, x, now); }
  }

  lemma SweepKeepsTxn(db: Db, x: Txn, a: Action, now: Time)
    requires StillHolds(db, x) && WritesFit(db, x) && Sweeping(db, x, a, now).Some?
    ensures var y := Sweeping(db, x, a, now).value; StillHolds(db, y) && WritesFit(db, y)
  {
    hide HasTrip, HasActiveTrip, Matches, Equipped, Basis;
  }

  // ---- Every action keeps the invariant ----

  lemma CommitKeepsTrips(db: Db, x: Txn)
    requires OneTripPerRide(db.trips) && OneActiveTripPerDriver(db.trips)
    requires WritesFit(db, x) && x.pc == OPPORTUNITIES_CLOSED
    requires !HasTrip(db.trips, x.pair.ride) && !HasActiveTrip(db.trips, x.pair.driver)
    ensures OneTripPerRide(Sees(db, x).trips) && OneActiveTripPerDriver(Sees(db, x).trips)
  {
    hide HasTrip, HasActiveTrip;
    TripAppended(db, x);
    AppendKeepsTrips(db.trips, x.made.trips[0]);
  }

  lemma TripAppended(db: Db, x: Txn)
    requires WritesFit(db, x) && x.pc == OPPORTUNITIES_CLOSED
    ensures |x.made.trips| == 1 && Sees(db, x).trips == db.trips + [x.made.trips[0]]
    ensures x.made.trips[0].ride == x.pair.ride && x.made.trips[0].trip.driver == x.pair.driver
    ensures ActiveTrip(x.made.trips[0].trip)
  {
    assert db.trips + [] == db.trips && x.made.trips == [x.made.trips[0]];
  }

  lemma AppendKeepsTrips(trips: seq<TripRow>, row: TripRow)
    requires OneTripPerRide(trips) && OneActiveTripPerDriver(trips)
    requires !HasTrip(trips, row.ride) && !HasActiveTrip(trips, row.trip.driver)
    ensures OneTripPerRide(trips + [row]) && OneActiveTripPerDriver(trips + [row])
  {
  }

  lemma ForwardKeepsTrips(db: Db, e: Db)
    requires OneTripPerRide(db.trips) && OneActiveTripPerDriver(db.trips) && MovesForward(db, e)
    ensures OneTripPerRide(e.trips) && OneActiveTripPerDriver(e.trips)
  {
    hide RidesEvolve, OffersEvolve, OpportunitiesEvolve;
    forall i, j | 0 <= i < j < |e.trips| && e.trips[i].trip.driver == e.trips[j].trip.driver
      ensures !(ActiveTrip(e.trips[i].trip) && ActiveTrip(e.trips[j].trip))
    {
      assert TripEvolves(db.trips[i].trip, e.trips[i].trip) && TripEvolves(db.trips[j].trip, e.trips[j].trip);
      assert !(ActiveTrip(db.trips[i].trip) && ActiveTrip(db.trips[j].trip));
    }
  }

  /** Replacing one transaction by a version whose locks were granted keeps the locks exclusive. */
  lemma GrantedKeepsExclusive(s: System, t: TxnId, y: Txn)
    requires Exclusive(s) && Granted(s, t, y)
    ensures Exclusive(s.(txns := s.txns[t := y]))
  {
  }

  lemma TxnOf(s: System, t: TxnId)
    requires SystemInv(s) && t in s.txns
    ensures StillHolds(s.db, s.txns[t]) && WritesFit(s.db, s.txns[t])
  {
  }

  lemma AdvanceKeepsInv(s: System, t: TxnId)
    requires SystemInv(s) && Allowed(s, Advance(t))
    ensures SystemInv(Act(s, Advance(t)))
  {
    hide StillHolds, WritesFit, Passes, Executed, OneTripPerRide, OneActiveTripPerDriver, Disjoint;
    TxnOf(s, t);
    if Passes(s.db, s.txns[t], s.now) {
      if s.txns[t].pc < OPERATION_MATCHED { CheckKeepsTxn(s.db, s.txns[t], s.now); }
      else { WriteKeepsTxn(s.db, s.txns[t], s.now); }
      GrantedKeepsExclusive(s, t, Executed(s.db, s.txns[t], s.now));
    }
  }

  lemma CommitKeepsInv(s: System, t: TxnId)
    requires SystemInv(s) && Allowed(s, Commit(t))
    ensures SystemInv(Act(s, Commit(t)))
  {
    hide StillHolds, WritesFit, Sees, OneTripPerRide, OneActiveTripPerDriver, Disjoint;
    var x := s.txns[t];
    TxnOf(s, t);
    ChecksNeedTrips(s.db, x);
    CommitKeepsTrips(s.db, x);
    forall u | u in s.txns && u != t
      ensures StillHolds(Sees(s.db, x), s.txns[u]) && WritesFit(Sees(s.db, x), s.txns[u])
    {
      TxnOf(s, u);
      CommitKeepsOther(s.db, x, s.txns[u]);
    }
  }

  lemma ElsewhereKeepsInv(s: System, e: Db, now: Time)
    requires SystemInv(s) && Allowed(s, Elsewhere(e, now))
    ensures SystemInv(Act(s, Elsewhere(e, now)))
  {
    hide StillHolds, WritesFit, OneTripPerRide, OneActiveTripPerDriver, Disjoint, MovesForward, RespectsLocks;
    ForwardKeepsTrips(s.db, e);
    forall u | u in s.txns ensures StillHolds(e, s.txns[u]) && WritesFit(e, s.txns[u]) {
      TxnOf(s, u);
      ElsewhereKeepsTxn(s.db, e, s.txns[u]);
    }
  }

  lemma BeginKeepsInv(s: System, a: Action)
    requires SystemInv(s) && Allowed(s, a) && a.Begin?
    ensures SystemInv(Act(s, a))
  {
    hide StillHolds, WritesFit, OneTripPerRide, OneActiveTripPerDriver, Disjoint;
    var x := Txn(a.pair, a.rider, a.version, SWEEPING, NOTHING, NOTHING);
    NewTxnFits(s, a.t, x);
    GrantedKeepsExclusive(s, a.t, x);
  }

  lemma NewTxnFits(s: System, t: TxnId, x: Txn)
    requires x.pc == SWEEPING && x.swept == NOTHING && x.made == NOTHING
    ensures StillHolds(s.db, x) && WritesFit(s.db, x) && Granted(s, t, x)
  {
    hide Overlay;
  }

  lemma SweepingKeepsInv(s: System, a: Action)
    requires SystemInv(s) && Allowed(s, a) && (a.SweepRide? || a.SweepOffer? || a.SweepOpportunity?)
    ensures SystemInv(Act(s, a))
  {
    hide StillHolds, WritesFit, Sweeping, OneTripPerRide, OneActiveTripPerDriver, Disjoint;
    TxnOf(s, a.t);
    SweepKeepsTxn(s.db, s.txns[a.t], a, s.now);
    GrantedKeepsExclusive(s, a.t, Sweeping(s.db, s.txns[a.t], a, s.now).value);
  }

  lemma ActKeepsInv(s: System, a: Action)
    requires SystemInv(s) && Allowed(s, a)
    ensures SystemInv(Act(s, a))
  {
    hide StillHolds, WritesFit, Sweeping, Executed, Passes, OneTripPerRide, OneActiveTripPerDriver, Disjoint, Sees,
         MovesForward, RespectsLocks;
    if a.Begin? { BeginKeepsInv(s, a); }
    else if a.Advance? { AdvanceKeepsInv(s, a.t); }
    else if a.Commit? { CommitKeepsInv(s, a.t); }
    else if a.Elsewhere? { ElsewhereKeepsInv(s, a.db, a.now); }
    else if !a.Rollback? { SweepingKeepsInv(s, a); }
  }

  // ---- Schedules ----

  ghost predicate Schedule(s: System, actions: seq<Action>)
    decreases |actions|
  {
    actions == [] || (Allowed(s, actions[0]) && Schedule(Act(s, actions[0]), actions[1..]))
  }

  ghost function Outcome(s: System, actions: seq<Action>): System
    requires Schedule(s, actions)
    decreases |actions|
  {
    if actions == [] then s else Outcome(Act(s, actions[0]), actions[1..])
  }

  lemma {:induction false} ScheduleKeepsInv(s: System, actions: seq<Action>)
    requires SystemInv(s) && Schedule(s, actions)
    ensures SystemInv(Outcome(s, actions))
    decreases |actions|
  {
    hide SystemInv, Allowed, Act;
    if actions != [] {
      ActKeepsInv(s, actions[0]);
      ScheduleKeepsInv(Act(s, actions[0]), actions[1..]);
    }
  }

  /**
   * However the statements of any number of assignments interleave, with each other and with the rest of
   * the system, a ride gets at most one trip and a driver at most one active trip.
   */
  lemma AssignmentsAreExclusive(db: Db, now: Time, actions: seq<Action>)
    requires db.trips == [] && Schedule(System(db, now, map[]), actions)
    ensures OneTripPerRide(Outcome(System(db, now, map[]), actions).db.trips)
    ensures OneActiveTripPerDriver(Outcome(System(db, now, map[]), actions).db.trips)
  {
    hide Schedule, Allowed, Act, StillHolds, WritesFit, Disjoint;
    ScheduleKeepsInv(System(db, now, map[]), actions);
  }

  lemma OwnTripOnly(db: Db, y: Txn, k: Pair)
    requires WritesFit(db, y)
    ensures HasTrip(y.made.trips, k.ride) ==> y.pc >= TRIP_INSERTED && y.pair.ride == k.ride
    ensures HasActiveTrip(y.made.trips, k.driver) ==> y.pc >= TRIP_INSERTED && y.pair.driver == k.driver
  {
  }

  /** When a trip is inserted, no committed row and no other uncommitted row has its ride or its active driver. */
  lemma UniqueKeysNeverFire(s: System, t: TxnId, u: TxnId)
    requires SystemInv(s) && t in s.txns && s.txns[t].pc == OPPORTUNITY_ACCEPTED && u in s.txns && u != t
    ensures !HasTrip(s.db.trips, s.txns[t].pair.ride) && !HasActiveTrip(s.db.trips, s.txns[t].pair.driver)
    ensures !HasTrip(s.txns[u].made.trips, s.txns[t].pair.ride)
    ensures !HasActiveTrip(s.txns[u].made.trips, s.txns[t].pair.driver)
  {
    hide StillHolds, WritesFit, OneTripPerRide, OneActiveTripPerDriver, HasTrip, HasActiveTrip;
    var x, y := s.txns[t], s.txns[u];
    TxnOf(s, t);
    ChecksNeedTrips(s.db, x);
    TxnOf(s, u);
    OwnTripOnly(s.db, y, x.pair);
    assert Disjoint(x, y) && x.pair.ride in RideLocks(x) && x.pair.driver in ProfileLocks(x);
  }

  /** A commit accepts its own ride, offer and opportunity, leaves no competitor pending, and touches no other ride. */
  lemma CommitAssignsTheRide(s: System, t: TxnId)
    requires SystemInv(s) && Allowed(s, Commit(t))
    ensures var x, b, y := s.txns[t], Basis(s.db, s.txns[t]), Act(s, Commit(t)).db; var k := x.pair;
      && k.ride in b.rides && y.rides.Keys == b.rides.Keys && y.rides[k.ride].status.RideAccepted?
      && (forall r | r in b.rides && r != k.ride :: y.rides[r] == b.rides[r])
      && k in y.offers && y.offers[k].status.OfferAccepted?
      && k in y.opportunities && y.opportunities[k].status.OpportunityAccepted?
      && (forall j | j in y.offers && j.ride == k.ride && j != k :: !y.offers[j].status.Pending?)
      && (forall j | j in b.offers && j.ride != k.ride :: j in y.offers && y.offers[j] == b.offers[j])
      && |y.trips| == |s.db.trips| + 1 && y.trips[|s.db.trips|].ride == k.ride
      && y.trips[|s.db.trips|].trip.driver == k.driver
      && k in b.offers && y.trips[|s.db.trips|].trip.context == b.offers[k].context
  {
    hide Exclusive, OneTripPerRide, OneActiveTripPerDriver, HasTrip, HasActiveTrip, Equipped, Matches, Sees, Overlay;
    var x := s.txns[t];
    TxnOf(s, t);
    forall j { OwnRows(s.db, x, j); }
    CommittedRide(s.db, x);
  }

  lemma CommittedRide(db: Db, x: Txn)
    requires StillHolds(db, x) && WritesFit(db, x) && x.pc == OPPORTUNITIES_CLOSED
    ensures Sees(db, x).trips == db.trips + x.made.trips
    ensures Sees(db, x).rides == Basis(db, x).rides[x.pair.ride := x.made.rides[x.pair.ride]]
  {
    hide HasTrip, HasActiveTrip, Equipped, Matches;
    assert db.trips + x.swept.trips == db.trips;
  }

  // ---- Agreement with the atomic transaction ----

  function TripTable(trips: seq<TripRow>): map<RideId, Trip> {
    if trips == [] then map[]
    else
      var last := trips[|trips| - 1];
      TripTable(trips[..|trips| - 1])[last.ride := last.trip]
  }

  lemma {:induction false} TripTableRows(trips: seq<TripRow>)
    requires OneTripPerRide(trips)
    ensures forall r :: r in TripTable(trips) <==> HasTrip(trips, r)
    ensures forall i | 0 <= i < |trips| :: trips[i].ride in TripTable(trips) && TripTable(trips)[trips[i].ride] == trips[i].trip
  {
    if trips != [] {
      var n := |trips| - 1;
      TripTableRows(trips[..n]);
      forall r ensures HasTrip(trips, r) <==> HasTrip(trips[..n], r) || r == trips[n].ride {
        if HasTrip(trips[..n], r) { var i :| 0 <= i < n && trips[..n][i].ride == r; assert trips[i].ride == r; }
        assert forall i | 0 <= i < n :: trips[..n][i] == trips[i];
      }
      forall i | 0 <= i < n
        ensures trips[i].ride in TripTable(trips) && TripTable(trips)[trips[i].ride] == trips[i].trip
      {
        assert trips[..n][i] == trips[i] && trips[i].ride != trips[n].ride;
      }
    }
  }

  lemma BusyTable(trips: seq<TripRow>, d: UserId)
    requires OneTripPerRide(trips)
    ensures Busy(TripTable(trips), d) <==> HasActiveTrip(trips, d)
  {
    hide TripTable;
    TripTableRows(trips);
    if HasActiveTrip(trips, d) {
      var i :| 0 <= i < |trips| && trips[i].trip.driver == d && ActiveTrip(trips[i].trip);
      assert TripTable(trips)[trips[i].ride].driver == d;
    }
    if Busy(TripTable(trips), d) {
      var r :| r in TripTable(trips) && TripTable(trips)[r].driver == d && ActiveTrip(TripTable(trips)[r]);
      var i :| 0 <= i < |trips| && trips[i].ride == r;
      assert trips[i].trip == TripTable(trips)[r];
    }
  }

  function Snapshot(db: Db, policy: TimingPolicy): State {
    State(db.rides, db.opportunities, db.offers, TripTable(db.trips), db.fleet, policy)
  }

  /**
   * At its commit, however long it waited, a transaction is one that the atomic selection accepts on the rows
   * it commits against, at any instant at which the two deadlines and the position are still good.
   */
  lemma CommitAgreesWithAtomicSelection(s: System, t: TxnId, at: Time, policy: TimingPolicy)
    requires SystemInv(s) && Allowed(s, Commit(t)) && s.txns[t].pair.driver != s.txns[t].rider
    requires var x, b := s.txns[t], Basis(s.db, s.txns[t]);
      && (x.pair.ride in b.rides ==> b.rides[x.pair.ride].expiresAt > at)
      && (x.pair in b.offers ==> b.offers[x.pair].expiresAt > at)
      && FreshPosition(s.db.fleet, x.pair.driver, at)
    ensures var x := s.txns[t];
      SelectRefusal(Snapshot(Basis(s.db, x), policy), at, x.pair, x.rider, x.version) == None
  {
    hide Exclusive, WritesFit, OneActiveTripPerDriver, HasTrip, HasActiveTrip, TripTable, Busy;
    var x := s.txns[t];
    TxnOf(s, t);
    SweptNoTrips(s.db, x) by { FitSwept(s.db, x); }
    TripTableRows(s.db.trips);
    BusyTable(s.db.trips, x.pair.driver);
  }

  lemma FitSwept(db: Db, x: Txn)
    requires WritesFit(db, x)
    ensures x.swept.trips == []
  {
  }
}
