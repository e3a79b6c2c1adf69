/** The onboarding tables as mutable fields; each repository method is proved against its function. */
module OnboardingDatabase {
  import opened Base
  import opened Ordering
  import O = Onboarding

  class Store {
    var users: set<UserId>
    var applications: map<O.ApplicationId, O.Application>
    var profiles: map<UserId, O.DriverProfile>
    var vehicles: map<VehicleId, O.RegisteredVehicle>
    var enrollments: set<O.ServiceEnrollment>
    var clock: Time
    ghost var made: map<O.ApplicationId, VehicleId>
    ghost var source: map<VehicleId, O.ApplicationId>
    ghost var told: map<O.ApplicationId, O.Kind>

    function Rows(): O.Registry
      reads this
    {
      O.Registry(users, applications, profiles, vehicles, enrollments)
    }

    ghost function History(): O.History
      reads this
    {
      O.History(Rows(), made, source, told, clock)
    }

    ghost predicate Valid()
      reads this
    {
      O.HistoryInv(History())
    }

    constructor (clock: Time)
      ensures Valid() && History() == O.EmptyHistory(clock)
    {
      hide O.HistoryInv;
      users, applications, profiles, vehicles, enrollments := {}, map[], map[], map[], {};
      this.clock := clock;
      made, source, told := map[], map[], map[];
      new;
      O.EmptyHistoryInv(clock);
    }

    method CreateApplication(now: Time, a: O.ApplicationId, d: UserId, input: O.Input) returns (view: Result<O.View>)
      requires Valid() && clock <= now
      modifies this
      ensures Valid() && History() == O.Next(old(History()), now, O.Submits(a, d, input))
      ensures O.Outcome(Rows(), view) == O.CreateApplication(old(Rows()), now, a, d, input)
    {
      hide O.HistoryInv, O.PlateTaken, O.HasPending;
      O.NextKeepsInv(History(), now, O.Submits(a, d, input));
      clock := now;
      if d !in users { return Err(UserNotFound); }
      var kind := if d in profiles then O.Additional else O.Initial;
      if O.PlateTaken(Rows(), d, input.details.plate) { return Err(VehicleAlreadyRegistered); }
      if a in applications { return Err(ConstraintViolation); }
      if O.HasPending(Rows(), d) { return Err(ApplicationPending); }
      var row := O.Application(d, input, O.Pending, None, now, None, None);
      applications := applications[a := row];
      told := told[a := kind];
      return Ok(O.View(a, row, kind));
    }

    /** Profile when missing, then vehicle, enrollment and decision; the plate key has nothing to refuse. */
    method ApproveApplication(now: Time, a: O.ApplicationId, v: VehicleId, reviewer: string)
      returns (view: Result<O.View>)
      requires Valid() && clock <= now
      modifies this
      ensures Valid() && History() == O.Next(old(History()), now, O.Approves(a, v, reviewer))
      ensures O.Outcome(Rows(), view) == O.ApproveApplication(old(Rows()), now, a, v, reviewer)
      ensures view != Err(VehicleAlreadyRegistered)
    {
      hide O.HistoryInv, O.PlateTaken, O.DerivedKind;
      O.NextKeepsInv(History(), now, O.Approves(a, v, reviewer));
      O.ApprovalNeverConflicts(History(), now, a, v, reviewer);
      clock := now;
      if a !in applications { return Err(ApplicationNotFound); }
      var row := applications[a];
      if row.driver !in users { return Err(UserNotFound); }
      if !row.status.Pending? { return Err(ApplicationNotPending); }
      if v in vehicles { return Err(ConstraintViolation); }
      var kind := O.DerivedKind(Rows(), a);
      if row.driver !in profiles {
        profiles := profiles[row.driver := O.DriverProfile(row.input.name, now)];
      }
      vehicles := vehicles[v := O.RegisteredVehicle(row.driver, row.input.details, now)];
      enrollments := enrollments + {O.ServiceEnrollment(v, row.input.service, now, reviewer)};
      applications := applications[a := O.Decided(row, O.Approved, None, now, reviewer)];
      made, source := made[a := v], source[v := a];
      return Ok(O.View(a, applications[a], kind));
    }

    method RejectApplication(now: Time, a: O.ApplicationId, reviewer: string, reason: string)
      returns (view: Result<O.View>)
      requires Valid() && clock <= now
      modifies this
      ensures Valid() && History() == O.Next(old(History()), now, O.Rejects(a, reviewer, reason))
      ensures O.Outcome(Rows(), view) == O.RejectApplication(old(Rows()), now, a, reviewer, reason)
    {
      hide O.HistoryInv, O.DerivedKind;
      O.NextKeepsInv(History(), now, O.Rejects(a, reviewer, reason));
      clock := now;
      if a !in applications { return Err(ApplicationNotFound); }
      var row := applications[a];
      if row.driver !in users { return Err(UserNotFound); }
      if !row.status.Pending? { return Err(ApplicationNotPending); }
      var kind := O.DerivedKind(Rows(), a);
      applications := applications[a := O.Decided(row, O.Rejected, Some(reason), now, reviewer)];
      return Ok(O.View(a, applications[a], kind));
    }

    /** The driver's last submission, ties by identifier, and the exact condition under which its kind has changed. */
    method LatestApplication(d: UserId) returns (view: Result<O.View>)
      requires Valid()
      ensures view.Err? ==> view == Err(ApplicationNotFound) && forall a | a in applications :: applications[a].driver != d
      ensures view.Ok? ==>
        && view.value.id in applications && view.value.row == applications[view.value.id] && view.value.row.driver == d
        && (forall a | a in applications && applications[a].driver == d && a != view.value.id ::
              || applications[a].submittedAt < view.value.row.submittedAt
              || (applications[a].submittedAt == view.value.row.submittedAt && a < view.value.id))
        && view.value.id in told
        && (view.value.kind != told[view.value.id]
            <==> told[view.value.id].Initial? && d in profiles && profiles[d].createdAt == view.value.row.submittedAt)
    {
      hide O.HistoryInv, O.DerivedKind;
      var r := Rows();
      var rows: set<O.ApplicationId> := set a | a in applications && applications[a].driver == d;
      if rows == {} {
        assert forall a | a in applications && applications[a].driver == d :: a in rows;
        return Err(ApplicationNotFound);
      }
      var order := (a: O.ApplicationId, b: O.ApplicationId) =>
        a in r.applications && b in r.applications && SubmittedLater(r, a, b);
      var ordered := OrderBy(rows, order);
      var latest := ordered[0];
      assert latest in RowsOf(ordered);
      forall a | a in applications && applications[a].driver == d && a != latest ensures SubmittedLater(r, latest, a) {
        assert a in rows && a in RowsOf(ordered);
        assert exists j :: 0 < j < |ordered| && ordered[j] == a;
      }
      O.DerivedKindDiffersIff(History(), latest);
      return Ok(O.View(latest, applications[latest], O.DerivedKind(r, latest)));
    }
  }

  /** ORDER BY submitted_at DESC, id DESC. */
  predicate SubmittedLater(r: O.Registry, a: O.ApplicationId, b: O.ApplicationId)
    requires a in r.applications && b in r.applications
  {
    var x, y := r.applications[a].submittedAt, r.applications[b].submittedAt;
    x > y || (x == y && a > b)
  }
}
