/** Driver onboarding: applications, their review, and the vehicles that approvals register. */
module Onboarding {
  import opened Base
  import M = MarketState

  type ApplicationId = nat

  datatype Kind = Initial | Additional
  datatype Status = Pending | Approved | Rejected

  datatype Input = Input(name: string, service: ServiceCode, details: M.VehicleDetails)
  datatype Application = Application(
    driver: UserId, input: Input, status: Status, reason: Option<string>,
    submittedAt: Time, decidedAt: Option<Time>, decidedBy: Option<string>)

  datatype DriverProfile = DriverProfile(name: string, createdAt: Time)
  datatype RegisteredVehicle = RegisteredVehicle(owner: UserId, details: M.VehicleDetails, createdAt: Time)
  datatype ServiceEnrollment = ServiceEnrollment(vehicle: VehicleId, service: ServiceCode, at: Time, reviewer: string)

  datatype Registry = Registry(
    users: set<UserId>, applications: map<ApplicationId, Application>, profiles: map<UserId, DriverProfile>,
    vehicles: map<VehicleId, RegisteredVehicle>, enrollments: set<ServiceEnrollment>)

  /** An application as its reader sees it: the row and the kind derived from the other rows. */
  datatype View = View(id: ApplicationId, row: Application, kind: Kind)

  datatype Outcome = Outcome(registry: Registry, result: Result<View>)

  // ---- Queries ----

  predicate HasPending(r: Registry, d: UserId) {
    exists a | a in r.applications :: r.applications[a].driver == d && r.applications[a].status.Pending?
  }

  predicate PlateTaken(r: Registry, d: UserId, plate: string) {
    exists v | v in r.vehicles :: r.vehicles[v].owner == d && r.vehicles[v].details.plate == plate
  }

  /** Another application of the driver was approved no later than this one was submitted. */
  predicate ApprovedBefore(r: Registry, a: ApplicationId)
    requires a in r.applications
  {
    exists b | b in r.applications ::
      && b != a && r.applications[b].driver == r.applications[a].driver
      && r.applications[b].status.Approved?
      && r.applications[b].decidedAt.Some? && r.applications[b].decidedAt.value <= r.applications[a].submittedAt
  }

  /** The kind that every read derives again. */
  function DerivedKind(r: Registry, a: ApplicationId): Kind
    requires a in r.applications
  {
    var d := r.applications[a].driver;
    if ApprovedBefore(r, a) || (d in r.profiles && r.profiles[d].createdAt <= r.applications[a].submittedAt)
    then Additional else Initial
  }

  /** The kind that a submission is told. */
  function KindForSubmission(r: Registry, d: UserId): Kind {
    if d in r.profiles then Additional else Initial
  }

  // ---- Transactions ----

  function CreateApplication(r: Registry, now: Time, a: ApplicationId, d: UserId, input: Input): Outcome {
    if d !in r.users then
      Outcome(r, Err(UserNotFound))
    else if PlateTaken(r, d, input.details.plate) then
      Outcome(r, Err(VehicleAlreadyRegistered))
    else if a in r.applications then
      Outcome(r, Err(ConstraintViolation))
    else if HasPending(r, d) then
      Outcome(r, Err(ApplicationPending))
    else
      var row := Application(d, input, Pending, None, now, None, None);
      Outcome(r.(applications := r.applications[a := row]), Ok(View(a, row, KindForSubmission(r, d))))
  }

  function EnsureProfile(profiles: map<UserId, DriverProfile>, row: Application, now: Time): map<UserId, DriverProfile> {
    if row.driver in profiles then profiles else profiles[row.driver := DriverProfile(row.input.name, now)]
  }

  function Decided(row: Application, status: Status, reason: Option<string>, now: Time, reviewer: string): Application {
    row.(status := status, reason := reason, decidedAt := Some(now), decidedBy := Some(reviewer))
  }

  function ApproveApplication(r: Registry, now: Time, a: ApplicationId, v: VehicleId, reviewer: string): Outcome {
    if a !in r.applications then
      Outcome(r, Err(ApplicationNotFound))
    else if r.applications[a].driver !in r.users then
      Outcome(r, Err(UserNotFound))
    else if !r.applications[a].status.Pending? then
      Outcome(r, Err(ApplicationNotPending))
    else if v in r.vehicles then
      Outcome(r, Err(ConstraintViolation))
    else if PlateTaken(r, r.applications[a].driver, r.applications[a].input.details.plate) then
      Outcome(r, Err(VehicleAlreadyRegistered))
    else
      var row := r.applications[a];
      var decided := Decided(row, Approved, None, now, reviewer);
      Outcome(
        r.(applications := r.applications[a := decided],
           profiles := EnsureProfile(r.profiles, row, now),
           vehicles := r.vehicles[v := RegisteredVehicle(row.driver, row.input.details, now)],
           enrollments := r.enrollments + {ServiceEnrollment(v, row.input.service, now, reviewer)}),
        Ok(View(a, decided, DerivedKind(r, a))))
  }

  function RejectApplication(r: Registry, now: Time, a: ApplicationId, reviewer: string, reason: string): Outcome {
    if a !in r.applications then
      Outcome(r, Err(ApplicationNotFound))
    else if r.applications[a].driver !in r.users then
      Outcome(r, Err(UserNotFound))
    else if !r.applications[a].status.Pending? then
      Outcome(r, Err(ApplicationNotPending))
    else
      var decided := Decided(r.applications[a], Rejected, Some(reason), now, reviewer);
      Outcome(r.(applications := r.applications[a := decided]), Ok(View(a, decided, DerivedKind(r, a))))
  }

  // ---- Histories: the registry with what each approval made and each submission was told ----

  datatype History = History(
    registry: Registry, made: map<ApplicationId, VehicleId>, source: map<VehicleId, ApplicationId>,
    told: map<ApplicationId, Kind>, clock: Time)

  datatype Event =
    | Submits(application: ApplicationId, driver: UserId, input: Input)
    | Approves(application: ApplicationId, vehicle: VehicleId, reviewer: string)
    | Rejects(application: ApplicationId, reviewer: string, reason: string)
    | Joins(user: UserId)

  function Next(h: History, now: Time, e: Event): History {
    match e
    case Submits(a, d, input) =>
      var o := CreateApplication(h.registry, now, a, d, input);
      h.(registry := o.registry, clock := now,
         told := if o.result.Ok? then h.told[a := o.result.value.kind] else h.told)
    case Approves(a, v, reviewer) =>
      var o := ApproveApplication(h.registry, now, a, v, reviewer);
      h.(registry := o.registry, clock := now,
         made := if o.result.Ok? then h.made[a := v] else h.made,
         source := if o.result.Ok? then h.source[v := a] else h.source)
    case Rejects(a, reviewer, reason) =>
      h.(registry := RejectApplication(h.registry, now, a, reviewer, reason).registry, clock := now)
    case Joins(u) => h.(registry := h.registry.(users := h.registry.users + {u}), clock := now)
  }

  // ---- The invariant ----

  /** The vehicle is the application's, field for field, registered at its approval. */
  predicate RegisteredFrom(vehicle: RegisteredVehicle, row: Application) {
    && row.status.Approved? && row.decidedAt.Some? && row.decidedBy.Some?
    && vehicle == RegisteredVehicle(row.driver, row.input.details, row.decidedAt.value)
  }

  /** Approved applications and vehicles correspond one to one. */
  ghost predicate MadeOk(r: Registry, made: map<ApplicationId, VehicleId>, source: map<VehicleId, ApplicationId>) {
    && (forall a :: a in made <==> a in r.applications && r.applications[a].status.Approved?)
    && source.Keys == r.vehicles.Keys
    && (forall a | a in made :: made[a] in source && source[made[a]] == a)
    && (forall v | v in source :: source[v] in made && made[source[v]] == v)
    && (forall v | v in source :: v in r.vehicles && source[v] in r.applications
          && RegisteredFrom(r.vehicles[v], r.applications[source[v]]))
  }

  /** The enrollment belongs to a vehicle, for the service and by the decision of its application. */
  predicate EnrolledFrom(e: ServiceEnrollment, row: Application) {
    e.service == row.input.service && Some(e.at) == row.decidedAt && Some(e.reviewer) == row.decidedBy
  }

  /** Each vehicle has exactly one enrollment, the one its approval wrote. */
  ghost predicate EnrollmentsOk(r: Registry, source: map<VehicleId, ApplicationId>) {
    && (forall e | e in r.enrollments ::
          && e.vehicle in source && source[e.vehicle] in r.applications
          && EnrolledFrom(e, r.applications[source[e.vehicle]]))
    && (forall v | v in source && source[v] in r.applications ::
          var row := r.applications[source[v]];
          && row.decidedAt.Some? && row.decidedBy.Some?
          && ServiceEnrollment(v, row.input.service, row.decidedAt.value, row.decidedBy.value) in r.enrollments)
  }

  /** The approval a profile was created by: no approval of the driver is earlier. */
  predicate FirstApproval(r: Registry, d: UserId, a: ApplicationId) {
    && d in r.profiles && a in r.applications
    && r.applications[a].driver == d && r.applications[a].status.Approved?
    && r.applications[a].decidedAt == Some(r.profiles[d].createdAt)
    && r.applications[a].input.name == r.profiles[d].name
  }

  ghost predicate ProfilesOk(r: Registry) {
    && (forall d | d in r.profiles :: exists a | a in r.applications :: FirstApproval(r, d, a))
    && (forall a | a in r.applications && r.applications[a].status.Approved? ::
          && r.applications[a].driver in r.profiles
          && r.applications[a].decidedAt.Some?
          && r.profiles[r.applications[a].driver].createdAt <= r.applications[a].decidedAt.value)
  }

  /** One pending application per driver, and its plate is free among the driver's vehicles. */
  ghost predicate PendingOk(r: Registry) {
    && (forall a | a in r.applications :: r.applications[a].driver in r.users)
    && (forall a, b | a in r.applications && b in r.applications && a != b
          && r.applications[a].status.Pending? && r.applications[b].status.Pending? ::
          r.applications[a].driver != r.applications[b].driver)
    && (forall a | a in r.applications && r.applications[a].status.Pending? ::
          !PlateTaken(r, r.applications[a].driver, r.applications[a].input.details.plate))
    && (forall v, w | v in r.vehicles && w in r.vehicles && v != w && r.vehicles[v].owner == r.vehicles[w].owner ::
          r.vehicles[v].details.plate != r.vehicles[w].details.plate)
  }

  /** Submissions are in the past, and a told kind says on which side of the profile's creation they lie. */
  ghost predicate ToldOk(r: Registry, told: map<ApplicationId, Kind>, clock: Time) {
    && told.Keys == r.applications.Keys
    && (forall a | a in r.applications :: r.applications[a].submittedAt <= clock)
    && (forall d | d in r.profiles :: r.profiles[d].createdAt <= clock)
    && (forall a | a in r.applications ::
          var d := r.applications[a].driver;
          if told[a].Additional? then d in r.profiles && r.profiles[d].createdAt <= r.applications[a].submittedAt
          else d in r.profiles ==> r.profiles[d].createdAt >= r.applications[a].submittedAt)
  }

  ghost predicate HistoryInv(h: History) {
    && MadeOk(h.registry, h.made, h.source)
    && EnrollmentsOk(h.registry, h.source)
    && ProfilesOk(h.registry)
    && PendingOk(h.registry)
    && ToldOk(h.registry, h.told, h.clock)
  }

  // ---- Every event keeps it ----

  /** A row of a driver without pending application, for a plate the driver has no vehicle with. */
  predicate Submittable(r: Registry, a: ApplicationId, row: Application) {
    && row.driver in r.users && a !in r.applications && row.status.Pending?
    && !PlateTaken(r, row.driver, row.input.details.plate)
    && !HasPending(r, row.driver)
  }

  lemma SubmittedRows(r: Registry, made: map<ApplicationId, VehicleId>, source: map<VehicleId, ApplicationId>,
                      a: ApplicationId, row: Application)
    requires MadeOk(r, made, source) && EnrollmentsOk(r, source) && Submittable(r, a, row)
    ensures var y := r.(applications := r.applications[a := row]); MadeOk(y, made, source) && EnrollmentsOk(y, source)
  {
    hide PlateTaken, HasPending, RegisteredFrom, EnrolledFrom;
  }

  lemma SubmittedProfiles(r: Registry, a: ApplicationId, row: Application)
    requires ProfilesOk(r) && Submittable(r, a, row)
    ensures ProfilesOk(r.(applications := r.applications[a := row]))
  {
    hide PlateTaken, HasPending;
    var y := r.(applications := r.applications[a := row]);
    forall d | d in y.profiles ensures exists b | b in y.applications :: FirstApproval(y, d, b) {
      var b :| b in r.applications && FirstApproval(r, d, b);
      assert FirstApproval(y, d, b);
    }
  }

  lemma SubmittedPending(r: Registry, a: ApplicationId, row: Application)
    requires PendingOk(r) && Submittable(r, a, row)
    ensures PendingOk(r.(applications := r.applications[a := row]))
  {
    var y := r.(applications := r.applications[a := row]);
    assert forall d, plate :: PlateTaken(y, d, plate) == PlateTaken(r, d, plate);
  }

  lemma SubmitKeepsInv(h: History, now: Time, a: ApplicationId, d: UserId, input: Input)
    requires HistoryInv(h) && h.clock <= now
    ensures HistoryInv(Next(h, now, Submits(a, d, input)))
  {
    hide MadeOk, EnrollmentsOk, ProfilesOk, PendingOk, PlateTaken, HasPending;
    if CreateApplication(h.registry, now, a, d, input).result.Ok? {
      var row := Application(d, input, Pending, None, now, None, None);
      SubmittedRows(h.registry, h.made, h.source, a, row);
      SubmittedProfiles(h.registry, a, row);
      SubmittedPending(h.registry, a, row);
    }
  }

  // ---- Decisions ----

  /** The registry after an approval. */
  function ApprovedRegistry(r: Registry, now: Time, a: ApplicationId, v: VehicleId, reviewer: string): Registry
    requires a in r.applications
  {
    var row := r.applications[a];
    r.(applications := r.applications[a := Decided(row, Approved, None, now, reviewer)],
       profiles := EnsureProfile(r.profiles, row, now),
       vehicles := r.vehicles[v := RegisteredVehicle(row.driver, row.input.details, now)],
       enrollments := r.enrollments + {ServiceEnrollment(v, row.input.service, now, reviewer)})
  }

  predicate Approvable(r: Registry, a: ApplicationId, v: VehicleId) {
    a in r.applications && r.applications[a].status.Pending? && v !in r.vehicles
  }

  lemma ApprovedMade(r: Registry, made: map<ApplicationId, VehicleId>, source: map<VehicleId, ApplicationId>,
                     now: Time, a: ApplicationId, v: VehicleId, reviewer: string)
    requires MadeOk(r, made, source) && Approvable(r, a, v)
    ensures MadeOk(ApprovedRegistry(r, now, a, v, reviewer), made[a := v], source[v := a])
  {
    hide EnsureProfile;
  }

  lemma ApprovedEnrollments(r: Registry, made: map<ApplicationId, VehicleId>, source: map<VehicleId, ApplicationId>,
                            now: Time, a: ApplicationId, v: VehicleId, reviewer: string)
    requires MadeOk(r, made, source) && EnrollmentsOk(r, source) && Approvable(r, a, v)
    ensures EnrollmentsOk(ApprovedRegistry(r, now, a, v, reviewer), source[v := a])
  {
    hide EnsureProfile, RegisteredFrom;
    assert forall w | w in source :: source[w] != a;
  }

  lemma ApprovedProfiles(r: Registry, now: Time, a: ApplicationId, v: VehicleId, reviewer: string)
    requires ProfilesOk(r) && Approvable(r, a, v)
    requires r.applications[a].driver in r.profiles ==> r.profiles[r.applications[a].driver].createdAt <= now
    ensures ProfilesOk(ApprovedRegistry(r, now, a, v, reviewer))
  {
    var y := ApprovedRegistry(r, now, a, v, reviewer);
    forall d | d in y.profiles ensures exists b | b in y.applications :: FirstApproval(y, d, b) {
      if d in r.profiles {
        var b :| b in r.applications && FirstApproval(r, d, b);
        assert FirstApproval(y, d, b);
      } else {
        assert FirstApproval(y, d, a);
      }
    }
  }

  lemma ApprovedPending(r: Registry, now: Time, a: ApplicationId, v: VehicleId, reviewer: string)
    requires PendingOk(r) && Approvable(r, a, v)
    ensures PendingOk(ApprovedRegistry(r, now, a, v, reviewer))
  {
    hide EnsureProfile;
    var y := ApprovedRegistry(r, now, a, v, reviewer);
    var row := r.applications[a];
    forall d, plate | PlateTaken(y, d, plate)
      ensures PlateTaken(r, d, plate) || (d == row.driver && plate == row.input.details.plate)
    {
      var w :| w in y.vehicles && y.vehicles[w].owner == d && y.vehicles[w].details.plate == plate;
      if w != v { assert w in r.vehicles && r.vehicles[w] == y.vehicles[w]; }
    }
  }

  lemma ApprovedTold(r: Registry, told: map<ApplicationId, Kind>, clock: Time, now: Time, a: ApplicationId,
                     v: VehicleId, reviewer: string)
    requires ToldOk(r, told, clock) && clock <= now && Approvable(r, a, v)
    ensures ToldOk(ApprovedRegistry(r, now, a, v, reviewer), told, now)
  {
  }

  lemma ApproveKeepsInv(h: History, now: Time, a: ApplicationId, v: VehicleId, reviewer: string)
    requires HistoryInv(h) && h.clock <= now
    ensures HistoryInv(Next(h, now, Approves(a, v, reviewer)))
  {
    hide MadeOk, EnrollmentsOk, ProfilesOk, PendingOk, PlateTaken, Decided, EnsureProfile;
    var r := h.registry;
    if ApproveApplication(r, now, a, v, reviewer).result.Ok? {
      ApprovedMade(r, h.made, h.source, now, a, v, reviewer);
      ApprovedEnrollments(r, h.made, h.source, now, a, v, reviewer);
      ApprovedProfiles(r, now, a, v, reviewer);
      ApprovedPending(r, now, a, v, reviewer);
      ApprovedTold(r, h.told, h.clock, now, a, v, reviewer);
    }
  }

  lemma RejectedRows(r: Registry, made: map<ApplicationId, VehicleId>, source: map<VehicleId, ApplicationId>,
                     a: ApplicationId, row: Application)
    requires MadeOk(r, made, source) && EnrollmentsOk(r, source)
    requires a in r.applications && r.applications[a].status.Pending? && row.status.Rejected?
    ensures var y := r.(applications := r.applications[a := row]); MadeOk(y, made, source) && EnrollmentsOk(y, source)
  {
    hide RegisteredFrom, EnrolledFrom;
    assert forall v | v in source :: source[v] != a;
  }

  lemma RejectedPending(r: Registry, a: ApplicationId, row: Application)
    requires PendingOk(r)
    requires a in r.applications && r.applications[a].status.Pending? && row.status.Rejected?
    requires row.driver == r.applications[a].driver
    ensures PendingOk(r.(applications := r.applications[a := row]))
  {
    var y := r.(applications := r.applications[a := row]);
    assert forall d, plate :: PlateTaken(y, d, plate) == PlateTaken(r, d, plate);
  }

  lemma RejectedProfiles(r: Registry, a: ApplicationId, row: Application)
    requires ProfilesOk(r)
    requires a in r.applications && r.applications[a].status.Pending? && row.status.Rejected?
    requires row.driver == r.applications[a].driver
    ensures ProfilesOk(r.(applications := r.applications[a := row]))
  {
    var y := r.(applications := r.applications[a := row]);
    forall d | d in y.profiles ensures exists b | b in y.applications :: FirstApproval(y, d, b) {
      var b :| b in r.applications && FirstApproval(r, d, b);
      assert FirstApproval(y, d, b);
    }
  }

  lemma RejectKeepsInv(h: History, now: Time, a: ApplicationId, reviewer: string, reason: string)
    requires HistoryInv(h) && h.clock <= now
    ensures HistoryInv(Next(h, now, Rejects(a, reviewer, reason)))
  {
    hide MadeOk, EnrollmentsOk, ProfilesOk, PendingOk;
    if RejectApplication(h.registry, now, a, reviewer, reason).result.Ok? {
      var row := Decided(h.registry.applications[a], Rejected, Some(reason), now, reviewer);
      RejectedRows(h.registry, h.made, h.source, a, row);
      RejectedProfiles(h.registry, a, row);
      RejectedPending(h.registry, a, row);
    }
  }

  lemma JoinKeepsInv(h: History, now: Time, u: UserId)
    requires HistoryInv(h) && h.clock <= now
    ensures HistoryInv(Next(h, now, Joins(u)))
  {
    hide MadeOk, EnrollmentsOk, ProfilesOk, PendingOk;
    JoinedRows(h.registry, h.made, h.source, u);
    JoinedDrivers(h.registry, u);
  }

  lemma JoinedRows(r: Registry, made: map<ApplicationId, VehicleId>, source: map<VehicleId, ApplicationId>, u: UserId)
    requires MadeOk(r, made, source) && EnrollmentsOk(r, source)
    ensures var y := r.(users := r.users + {u}); MadeOk(y, made, source) && EnrollmentsOk(y, source)
  {
    hide RegisteredFrom, EnrolledFrom;
  }

  lemma JoinedDrivers(r: Registry, u: UserId)
    requires ProfilesOk(r) && PendingOk(r)
    ensures var y := r.(users := r.users + {u}); ProfilesOk(y) && PendingOk(y)
  {
    var y := r.(users := r.users + {u});
    assert forall d, plate :: PlateTaken(y, d, plate) == PlateTaken(r, d, plate);
    forall d | d in y.profiles ensures exists b | b in y.applications :: FirstApproval(y, d, b) {
      var b :| b in r.applications && FirstApproval(r, d, b);
      assert FirstApproval(y, d, b);
    }
  }

  lemma NextKeepsInv(h: History, now: Time, e: Event)
    requires HistoryInv(h) && h.clock <= now
    ensures HistoryInv(Next(h, now, e))
  {
    hide HistoryInv, Next;
    match e
    case Submits(a, d, input) => SubmitKeepsInv(h, now, a, d, input);
    case Approves(a, v, reviewer) => ApproveKeepsInv(h, now, a, v, reviewer);
    case Rejects(a, reviewer, reason) => RejectKeepsInv(h, now, a, reviewer, reason);
    case Joins(u) => JoinKeepsInv(h, now, u);
  }

  // ---- Runs ----

  datatype Step = Step(at: Time, event: Event)

  predicate Timed(clock: Time, run: seq<Step>)
    decreases |run|
  {
    run == [] || (clock <= run[0].at && Timed(run[0].at, run[1..]))
  }

  function After(h: History, run: seq<Step>): History
    decreases |run|
  {
    if run == [] then h else After(Next(h, run[0].at, run[0].event), run[1..])
  }

  function EmptyHistory(clock: Time): History {
    History(Registry({}, map[], map[], map[], {}), map[], map[], map[], clock)
  }

  lemma {:induction false} RunKeepsInv(h: History, run: seq<Step>)
    requires HistoryInv(h) && Timed(h.clock, run)
    ensures HistoryInv(After(h, run))
    decreases |run|
  {
    hide HistoryInv;
    if run != [] {
      NextKeepsInv(h, run[0].at, run[0].event);
      ClockOf(h, run[0].at, run[0].event);
      RunKeepsInv(Next(h, run[0].at, run[0].event), run[1..]);
    }
  }

  lemma ClockOf(h: History, now: Time, e: Event)
    ensures Next(h, now, e).clock == now
  {
  }

  /**
   * After any run: vehicles and approved applications are in one-to-one, field-exact correspondence, each
   * vehicle has exactly one enrollment, and a profile exists exactly for drivers with an approval.
   */
  lemma RegistryMatchesApprovals(clock: Time, run: seq<Step>)
    requires Timed(clock, run)
    ensures var h := After(EmptyHistory(clock), run);
            MadeOk(h.registry, h.made, h.source) && EnrollmentsOk(h.registry, h.source)
    ensures var r := After(EmptyHistory(clock), run).registry;
            forall d :: d in r.profiles <==>
              exists a :: a in r.applications && r.applications[a].driver == d && r.applications[a].status.Approved?
  {
    hide MadeOk, EnrollmentsOk, PendingOk, After, Timed;
    EmptyHistoryInv(clock);
    RunKeepsInv(EmptyHistory(clock), run);
    var r := After(EmptyHistory(clock), run).registry;
    forall d | d in r.profiles
      ensures exists a :: a in r.applications && r.applications[a].driver == d && r.applications[a].status.Approved?
    {
      var a :| a in r.applications && FirstApproval(r, d, a);
    }
  }

  lemma EmptyHistoryInv(clock: Time)
    ensures HistoryInv(EmptyHistory(clock))
  {
  }

  /** An approval never meets the plate key. */
  lemma ApprovalNeverConflicts(h: History, now: Time, a: ApplicationId, v: VehicleId, reviewer: string)
    requires HistoryInv(h)
    ensures ApproveApplication(h.registry, now, a, v, reviewer).result != Err(VehicleAlreadyRegistered)
    ensures ApproveApplication(h.registry, now, a, v, reviewer).result != Err(UserNotFound)
  {
    hide MadeOk, EnrollmentsOk, ProfilesOk, PlateTaken;
  }

  // ---- The derived kind ----

  /** An earlier approval of another application implies an equally early profile, so only the profile decides. */
  lemma ProfileDecidesKind(h: History, a: ApplicationId)
    requires HistoryInv(h) && a in h.registry.applications
    ensures var r, d := h.registry, h.registry.applications[a].driver;
            DerivedKind(r, a).Additional?
            <==> d in r.profiles && r.profiles[d].createdAt <= r.applications[a].submittedAt
  {
    hide MadeOk, EnrollmentsOk, PendingOk;
  }

  /**
   * A later read derives another kind than the submission was told exactly when a first-time applicant's
   * profile was created at the very instant of the submission.
   */
  lemma DerivedKindDiffersIff(h: History, a: ApplicationId)
    requires HistoryInv(h) && a in h.registry.applications
    ensures a in h.told
    ensures var r, d := h.registry, h.registry.applications[a].driver;
            DerivedKind(r, a) != h.told[a]
            <==> h.told[a].Initial? && d in r.profiles && r.profiles[d].createdAt == r.applications[a].submittedAt
  {
    hide MadeOk, EnrollmentsOk, PendingOk, ProfilesOk, DerivedKind;
    ProfileDecidesKind(h, a);
  }

  predicate StrictlyTimed(clock: Time, run: seq<Step>)
    decreases |run|
  {
    run == [] || (clock < run[0].at && StrictlyTimed(run[0].at, run[1..]))
  }

  /** First-time applicants submitted strictly before their profile existed. */
  ghost predicate ToldStrictly(h: History) {
    var r := h.registry;
    && h.told.Keys == r.applications.Keys
    && forall a | a in r.applications && h.told[a].Initial? && r.applications[a].driver in r.profiles ::
         r.profiles[r.applications[a].driver].createdAt > r.applications[a].submittedAt
  }

  lemma NextKeepsStrict(h: History, now: Time, e: Event)
    requires HistoryInv(h) && ToldStrictly(h) && h.clock < now
    ensures ToldStrictly(Next(h, now, e))
  {
    hide MadeOk, EnrollmentsOk, PendingOk, ProfilesOk, PlateTaken, HasPending, DerivedKind, EnsureProfile;
    if e.Submits? { SubmittedStrict(h, now, e.application, e.driver, e.input); }
    if e.Approves? && ApproveApplication(h.registry, now, e.application, e.vehicle, e.reviewer).result.Ok? {
      ApprovedStrict(h, now, e.application, e.vehicle, e.reviewer);
    }
  }

  lemma SubmittedStrict(h: History, now: Time, a: ApplicationId, d: UserId, input: Input)
    requires ToldStrictly(h)
    ensures ToldStrictly(Next(h, now, Submits(a, d, input)))
  {
    hide PlateTaken, HasPending;
  }

  lemma ApprovedStrict(h: History, now: Time, a: ApplicationId, v: VehicleId, reviewer: string)
    requires ToldStrictly(h) && ToldOk(h.registry, h.told, h.clock) && h.clock < now && Approvable(h.registry, a, v)
    ensures ToldStrictly(h.(registry := ApprovedRegistry(h.registry, now, a, v, reviewer)))
  {
  }

  lemma {:induction false} RunKeepsStrict(h: History, run: seq<Step>)
    requires HistoryInv(h) && ToldStrictly(h) && StrictlyTimed(h.clock, run)
    ensures HistoryInv(After(h, run)) && ToldStrictly(After(h, run))
    decreases |run|
  {
    hide HistoryInv, ToldStrictly;
    if run != [] {
      NextKeepsInv(h, run[0].at, run[0].event);
      NextKeepsStrict(h, run[0].at, run[0].event);
      ClockOf(h, run[0].at, run[0].event);
      RunKeepsStrict(Next(h, run[0].at, run[0].event), run[1..]);
    }
  }

  /** With strictly increasing clock readings, every later read derives the kind told at submission. */
  lemma DerivedKindIsStable(clock: Time, run: seq<Step>, a: ApplicationId)
    requires StrictlyTimed(clock, run) && a in After(EmptyHistory(clock), run).registry.applications
    ensures var h := After(EmptyHistory(clock), run); a in h.told && DerivedKind(h.registry, a) == h.told[a]
  {
    hide HistoryInv, DerivedKind;
    EmptyHistoryInv(clock);
    RunKeepsStrict(EmptyHistory(clock), run);
    DerivedKindDiffersIff(After(EmptyHistory(clock), run), a);
  }

  /** Two equal readings are enough to change the answer: submit and approve at one instant. */
  lemma EqualReadingsChangeTheKind()
    ensures var input := Input("D", "go", M.VehicleDetails("", "", 2020, "", "P"));
            var run := [Step(0, Joins(7)), Step(1, Submits(1, 7, input)), Step(1, Approves(1, 3, "r"))];
            var h := After(EmptyHistory(0), run);
            Timed(0, run) && 1 in h.registry.applications && 1 in h.told
            && h.told[1].Initial? && DerivedKind(h.registry, 1).Additional?
  {
    var input := Input("D", "go", M.VehicleDetails("", "", 2020, "", "P"));
    var h := Next(EmptyHistory(0), 0, Joins(7));
    var i := Next(h, 1, Submits(1, 7, input));
    assert i.registry.applications == map[1 := Application(7, input, Pending, None, 1, None, None)];
    var j := Next(i, 1, Approves(1, 3, "r"));
    var run := [Step(0, Joins(7)), Step(1, Submits(1, 7, input)), Step(1, Approves(1, 3, "r"))];
    assert After(EmptyHistory(0), run) == After(h, run[1..]) == After(i, run[1..][1..]) == After(j, run[1..][1..][1..]);
    assert run[1..][1..] == [run[2]] && run[1..][1..][1..] == [];
    assert Timed(1, run[1..][1..]) && Timed(0, run[1..]);
  }
}
