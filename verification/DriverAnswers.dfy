/** What each driver request answers and writes, over the columns stored before it. */
module DriverAnswers {
  import opened Base
  import opened MarketState
  import opened Transactions
  import opened Invariants
  import opened Preservation
  import opened Lifecycle

  // ---- Trip execution ----

  predicate Theirs(s: State, r: RideId, d: UserId) {
    r in s.trips && s.trips[r].driver == d
  }

  /** Only the trip's own row changes, and it becomes the reply. */
  predicate TripBecomes(s: State, o: Tx<Trip>, r: RideId, trip: Trip) {
    o.result == Ok(trip) && o.state == s.(trips := s.trips[r := trip])
  }

  /** An assigned trip starts now; a started one is replied as it is. */
  lemma StartAnswers(s: State, now: Time, r: RideId, d: UserId)
    ensures var o := Start(s, now, r, d);
      if !Theirs(s, r, d) then o == Tx(s, Err(TripNotFound))
      else if s.trips[r].status == TripCancelled then o == Tx(s, Err(TripCancelledError))
      else if s.trips[r].status == Completed then o == Tx(s, Err(TripCompletedError))
      else TripBecomes(s, o, r, if s.trips[r].status == InProgress then s.trips[r]
                                else s.trips[r].(status := InProgress, startedAt := Some(now)))
  {
    if r in s.trips { assert s.trips[r := s.trips[r]] == s.trips; }
  }

  /** A started trip completes now; a completed one is replied as it is. */
  lemma CompleteAnswers(s: State, now: Time, r: RideId, d: UserId)
    requires Inv(s, now)
    ensures var o := Complete(s, now, r, d);
      if !Theirs(s, r, d) then o == Tx(s, Err(TripNotFound))
      else if s.trips[r].status == TripCancelled then o == Tx(s, Err(TripCancelledError))
      else if s.trips[r].status == Assigned then o == Tx(s, Err(TripNotStarted))
      else TripBecomes(s, o, r, if s.trips[r].status == Completed then s.trips[r]
                                else s.trips[r].(status := Completed, completedAt := Some(now)))
  {
    hide Inv;
    if r in s.trips {
      TripRowAgrees(s, now, r);
      assert s.trips[r := s.trips[r]] == s.trips;
    }
  }

  /** A completed trip is settled once, in cash, now, by its driver; a settled one is replied as it is. */
  lemma ConfirmCashAnswers(s: State, now: Time, r: RideId, d: UserId)
    requires Inv(s, now)
    ensures var o := ConfirmCashCollected(s, now, r, d);
      if !Theirs(s, r, d) then o == Tx(s, Err(TripNotFound))
      else if s.trips[r].status == TripCancelled then o == Tx(s, Err(TripCancelledError))
      else if s.trips[r].status != Completed then o == Tx(s, Err(TripNotCompleted))
      else TripBecomes(s, o, r, if s.trips[r].settlement.collected then s.trips[r]
                                else s.trips[r].(settlement := Settlement(true, Some("cash"), Some(now), Some(d))))
  {
    hide Inv;
    if r in s.trips {
      TripRowAgrees(s, now, r);
      assert s.trips[r := s.trips[r]] == s.trips;
    }
  }

  // ---- Presence ----

  predicate Placed(f: Fleet, d: UserId, now: Time) {
    d in f.positions && now - 120_000_000 <= f.positions[d].updatedAt <= now
  }

  /** The profiles after whoever of `scope` is online without a fresh position has been taken offline. */
  ghost predicate LapsedTakenOffline(f: Fleet, profiles: map<UserId, Profile>, now: Time, scope: iset<UserId>) {
    && profiles.Keys == f.profiles.Keys
    && forall u | u in f.profiles ::
         profiles[u] == if u in scope && !Placed(f, u, now) then f.profiles[u].(online := false) else f.profiles[u]
  }

  /** The sweep takes offline exactly those in scope whose lock it got and whose position is missing or stale. */
  lemma ExpirePresenceWrites(f: Fleet, now: Time, only: Option<UserId>, skipped: set<UserId>)
    ensures var g := ExpirePresence(f, now, only, skipped);
      && g == f.(profiles := g.profiles)
      && LapsedTakenOffline(f, g.profiles, now, iset u | (only == None || only == Some(u)) && u !in skipped)
  {
  }

  predicate DrivesNow(s: State, d: UserId) {
    exists r | r in s.trips ::
      s.trips[r].driver == d && (s.trips[r].status == Assigned || s.trips[r].status == InProgress)
  }

  predicate Serves(f: Fleet, v: VehicleId) {
    exists e | e in f.enrollments :: e.vehicle == v && e.service in f.catalog && f.catalog[e.service].active
  }

  /** The vehicle the profile is shown with: the driver's first, by registration time and then identifier. */
  predicate ShowsProfile(f: Fleet, d: UserId, view: ProfileView) {
    && d in f.profiles && view.profile == f.profiles[d]
    && view.vehicle in f.vehicles && f.vehicles[view.vehicle].owner == d
    && view.details == f.vehicles[view.vehicle].details
    && forall w | w in f.vehicles && f.vehicles[w].owner == d ::
         && f.vehicles[view.vehicle].createdAt <= f.vehicles[w].createdAt
         && (f.vehicles[view.vehicle].createdAt == f.vehicles[w].createdAt ==> view.vehicle <= w)
  }

  /** Every driver with a profile is found, with the first registered vehicle. */
  lemma FindAnswers(s: State, now: Time, d: UserId)
    requires Inv(s, now)
    ensures var found := FindByUserID(s.fleet, d);
      && (found.Ok? <==> d in s.fleet.profiles)
      && (if found.Ok? then ShowsProfile(s.fleet, d, found.value) else found.error == ProfileNotFound)
  {
    hide RidesOk, PairsOk, TripsOk, DriversOk;
  }

  lemma ProfileOnly(f: Fleet, d: UserId, online: bool, now: Time)
    requires d in f.profiles && (online ==> Placed(f, d, now))
    ensures var profile := f.profiles[d].(online := online, status := if online then Active else f.profiles[d].status);
      ExpirePresence(WithOnline(f, d, online), now, Some(d), {}) == f.(profiles := f.profiles[d := profile])
  {
  }

  lemma FindAfterProfile(f: Fleet, d: UserId, profile: Profile)
    requires d in f.profiles && OwnsVehicle(f, d)
    ensures var g := f.(profiles := f.profiles[d := profile]);
      FindByUserID(g, d).Ok? && ShowsProfile(g, d, FindByUserID(g, d).value)
  {
    var g := f.(profiles := f.profiles[d := profile]);
    assert OwnsVehicle(g, d);
  }

  lemma SelectionIsOwned(s: State, now: Time, d: UserId)
    requires Inv(s, now)
    ensures d in s.fleet.selections ==>
      s.fleet.selections[d] in s.fleet.vehicles && s.fleet.vehicles[s.fleet.selections[d]].owner == d
    ensures d in s.fleet.profiles ==> OwnsVehicle(s.fleet, d)
  {
    hide RidesOk, PairsOk, TripsOk, DriversOk;
  }

  /**
   * Going online needs a selected vehicle that serves, the capability, a position at most two minutes old and no trip
   * under way, refused in that order; going offline needs a profile. Only that profile changes.
   */
  lemma SetOnlineAnswers(s: State, now: Time, d: UserId, online: bool)
    requires Inv(s, now)
    ensures var o, f := SetOnline(s, now, d, online), s.fleet;
      var equipped := d in f.selections && Serves(f, f.selections[d]) && d in f.capable;
      && (o.result.Ok? <==> d in f.profiles && (online ==> equipped && Placed(f, d, now) && !DrivesNow(s, d)))
      && (o.result == Err(ProfileNotFound) <==> d !in f.profiles)
      && (o.result == Err(SelectionInvalid) <==> d in f.profiles && online && !equipped)
      && (o.result == Err(LocationRequired) <==> d in f.profiles && online && equipped && !Placed(f, d, now))
      && (o.result.Err? ==>
            o.state == s && o.result.error in {ProfileNotFound, SelectionInvalid, LocationRequired, TripActive})
      && (o.result.Ok? ==>
            var profile := f.profiles[d].(online := online, status := if online then Active else f.profiles[d].status);
            && o.state == s.(fleet := f.(profiles := f.profiles[d := profile]))
            && ShowsProfile(o.state.fleet, d, o.result.value))
  {
    hide Inv, FindByUserID, WithOnline, ExpirePresence, ShowsProfile, ServesSomething;
    var f := s.fleet;
    SelectionIsOwned(s, now, d);
    if d in f.selections { ServesMeans(f, f.selections[d]); }
    BusyMeans(s, d);
    if d in f.profiles && (online ==> Placed(f, d, now)) {
      ProfileOnly(f, d, online, now);
      FindAfterProfile(f, d, f.profiles[d].(online := online, status := if online then Active else f.profiles[d].status));
    }
  }

  lemma ServesMeans(f: Fleet, v: VehicleId)
    ensures ServesSomething(f, v) <==> Serves(f, v)
  {
  }

  lemma BusyMeans(s: State, d: UserId)
    ensures Busy(s.trips, d) <==> DrivesNow(s, d)
  {
  }

  // ---- Vehicle selection and position ----

  /** What the driver is told of the selection, and whether it may change. */
  lemma OperatingStateAnswers(s: State, d: UserId)
    ensures var state, f := ReadOperatingState(s, d), s.fleet;
      && (state.Ok? <==> d in f.profiles) && (state.Err? ==> state.error == ProfileNotFound)
      && (state.Ok? ==>
            && (state.value.canChange <==> !f.profiles[d].online && !DrivesNow(s, d))
            && (state.value.selection.Some? <==> d in f.selections)
            && (d in f.selections ==>
                  && state.value.selection.value.0 == f.selections[d]
                  && (state.value.selection.value.1
                      <==> f.selections[d] in f.vehicles && f.vehicles[f.selections[d]].owner == d
                           && Serves(f, f.selections[d]))))
  {
  }

  /**
   * A driver who is not available and has no trip under way can select any own vehicle that serves. A lapsed presence is
   * taken offline first, and stays offline even when the selection is refused.
   */
  lemma SelectOperationAnswers(s: State, now: Time, d: UserId, v: VehicleId)
    ensures var o, f := SelectOperation(s, now, d, v), s.fleet;
      var locked := d in f.profiles && ((f.profiles[d].online && Placed(f, d, now)) || DrivesNow(s, d));
      var valid := v in f.vehicles && f.vehicles[v].owner == d && Serves(f, v) && d in f.capable;
      && (o.result.Ok? <==> d in f.profiles && !locked && valid)
      && (o.result == Err(ProfileNotFound) <==> d !in f.profiles)
      && (o.result == Err(SelectionLocked) <==> locked)
      && (o.result.Err? ==> o.result.error in {ProfileNotFound, SelectionLocked, SelectionInvalid})
      && (o.result.Ok? ==> o.result.value == OperatingState(Some((v, true)), true))
      && o.state == s.(fleet := f.(
           profiles := o.state.fleet.profiles,
           selections := if o.result.Ok? then f.selections[d := v] else f.selections))
      && LapsedTakenOffline(f, o.state.fleet.profiles, now, iset{d})
  {
    hide Busy, ServesSomething, DrivesNow, Serves, ExpirePresence;
    var f := s.fleet;
    ExpirePresenceWrites(f, now, Some(d), {});
    var g := ExpirePresence(f, now, Some(d), {});
    ServesMeans(f, v);
    SameServices(f, g, v);
    SameServices(f, g.(selections := g.selections[d := v]), v);
    BusyMeans(s, d);
  }

  lemma SameServices(f: Fleet, g: Fleet, v: VehicleId)
    requires g.enrollments == f.enrollments && g.catalog == f.catalog
    ensures ServesSomething(g, v) == ServesSomething(f, v)
  {
  }

  /** A reported position is stored at this instant; a driver whose last one was stale is offline afterwards. */
  lemma UpdateLocationAnswers(s: State, now: Time, d: UserId, point: Point)
    ensures var o, f := UpdateLocation(s, now, d, point), s.fleet;
      if d !in f.profiles then o == Tx(s, Err(ProfileNotFound))
      else
        && o.result == Ok(Position(point, now))
        && o.state == s.(fleet := f.(
             profiles := o.state.fleet.profiles, positions := f.positions[d := Position(point, now)]))
        && LapsedTakenOffline(f, o.state.fleet.profiles, now, iset{d})
  {
    hide ExpirePresence;
    ExpirePresenceWrites(s.fleet, now, Some(d), {});
  }

  // ---- Registration ----

  /** An approval adds a vehicle of the driver's, its service, and an offline profile only for a driver without one. */
  lemma EnrollWrites(f: Fleet, now: Time, d: UserId, name: string, v: VehicleId, details: VehicleDetails,
                     service: ServiceCode)
    ensures var g := Enroll(f, now, d, name, v, details, service);
      if v in f.vehicles then g == f
      else
        && g == f.(profiles := g.profiles, vehicles := g.vehicles, enrollments := g.enrollments)
        && g.vehicles == f.vehicles[v := Vehicle(d, details, now)]
        && g.enrollments == f.enrollments + {Enrollment(v, service)}
        && d in g.profiles && g.profiles == f.profiles[d := g.profiles[d]]
        && g.profiles[d] == if d in f.profiles then f.profiles[d] else Profile(name, Approved, false)
  {
  }
}
