/** What each onboarding request answers and writes, over the rows stored before it, and that decisions are final. */
module OnboardingAnswers {
  import opened Base
  import M = MarketState
  import opened Onboarding

  predicate Awaits(r: Registry, a: ApplicationId) {
    a in r.applications && r.applications[a].status == Pending
  }

  /** Only the application's own row changes, and it is replied. */
  predicate ApplicationBecomes(r: Registry, o: Outcome, a: ApplicationId, row: Application) {
    && o.result.Ok? && o.result.value.id == a && o.result.value.row == row
    && o.registry.applications == r.applications[a := row] && o.registry.users == r.users
  }

  /** A user can apply for a plate of which they have no vehicle, while none of their applications awaits review. */
  lemma SubmissionAnswers(r: Registry, now: Time, a: ApplicationId, d: UserId, input: Input)
    ensures var o := CreateApplication(r, now, a, d, input);
      var owned := exists v | v in r.vehicles :: r.vehicles[v].owner == d && r.vehicles[v].details.plate == input.details.plate;
      var waiting := exists b | b in r.applications :: r.applications[b].driver == d && Awaits(r, b);
      && (o.result.Ok? <==> d in r.users && !owned && !waiting && a !in r.applications)
      && (o.result == Err(UserNotFound) <==> d !in r.users)
      && (o.result == Err(VehicleAlreadyRegistered) <==> d in r.users && owned)
      && (o.result == Err(ApplicationPending) <==> d in r.users && !owned && a !in r.applications && waiting)
      && (if o.result.Ok?
          then ApplicationBecomes(r, o, a, Application(d, input, Pending, None, now, None, None))
               && o.registry == r.(applications := o.registry.applications)
               && (o.result.value.kind == Additional <==> d in r.profiles)
          else o.registry == r)
  {
  }

  /**
   * An application that awaits review is approved now: it registers the vehicle it describes for the service it names,
   * and a first approval also makes the driver's profile.
   */
  lemma ApprovalAnswers(h: History, now: Time, a: ApplicationId, v: VehicleId, reviewer: string)
    requires HistoryInv(h)
    ensures var r, o := h.registry, ApproveApplication(h.registry, now, a, v, reviewer);
      && (o.result.Ok? <==> Awaits(r, a) && v !in r.vehicles)
      && (o.result == Err(ApplicationNotFound) <==> a !in r.applications)
      && (o.result == Err(ApplicationNotPending) <==> a in r.applications && !Awaits(r, a))
      && (o.result.Err? ==> o.registry == r)
      && (o.result.Ok? ==>
            var row := r.applications[a];
            && ApplicationBecomes(r, o, a,
                 row.(status := Approved, reason := None, decidedAt := Some(now), decidedBy := Some(reviewer)))
            && (o.result.value.kind == Additional
                <==> row.driver in r.profiles && r.profiles[row.driver].createdAt <= row.submittedAt)
            && o.registry.vehicles == r.vehicles[v := RegisteredVehicle(row.driver, row.input.details, now)]
            && o.registry.enrollments == r.enrollments + {ServiceEnrollment(v, row.input.service, now, reviewer)}
            && o.registry.profiles == (if row.driver in r.profiles then r.profiles
                                       else r.profiles[row.driver := DriverProfile(row.input.name, now)]))
  {
    hide MadeOk, EnrollmentsOk, ProfilesOk, ToldOk, DerivedKind, PlateTaken;
    if a in h.registry.applications { ProfileDecidesKind(h, a); }
  }

  /** An application that awaits review is rejected now, for the reason and by the reviewer given; nothing else changes. */
  lemma RejectionAnswers(h: History, now: Time, a: ApplicationId, reviewer: string, reason: string)
    requires HistoryInv(h)
    ensures var r, o := h.registry, RejectApplication(h.registry, now, a, reviewer, reason);
      && (o.result.Ok? <==> Awaits(r, a))
      && (o.result == Err(ApplicationNotFound) <==> a !in r.applications)
      && (o.result == Err(ApplicationNotPending) <==> a in r.applications && !Awaits(r, a))
      && (if o.result.Ok?
          then ApplicationBecomes(r, o, a, r.applications[a].(
                 status := Rejected, reason := Some(reason), decidedAt := Some(now), decidedBy := Some(reviewer)))
               && o.registry == r.(applications := o.registry.applications)
               && (o.result.value.kind == Additional
                   <==> && r.applications[a].driver in r.profiles
                        && r.profiles[r.applications[a].driver].createdAt <= r.applications[a].submittedAt)
          else o.registry == r)
  {
    hide MadeOk, EnrollmentsOk, ProfilesOk, ToldOk, DerivedKind, PlateTaken;
    if a in h.registry.applications { ProfileDecidesKind(h, a); }
  }

  lemma NextKeepsDecided(h: History, now: Time, e: Event, a: ApplicationId)
    requires a in h.registry.applications && !Awaits(h.registry, a)
    ensures a in Next(h, now, e).registry.applications
    ensures Next(h, now, e).registry.applications[a] == h.registry.applications[a]
  {
    hide PlateTaken, HasPending, DerivedKind, KindForSubmission, EnsureProfile;
  }

  /** A decided application keeps its decision, reason, reviewer and time in every continuation. */
  lemma {:induction false} ReviewsAreFinal(h: History, run: seq<Step>, a: ApplicationId)
    requires a in h.registry.applications && !Awaits(h.registry, a)
    ensures a in After(h, run).registry.applications
    ensures After(h, run).registry.applications[a] == h.registry.applications[a]
    decreases |run|
  {
    hide Next;
    if run != [] {
      NextKeepsDecided(h, run[0].at, run[0].event, a);
      ReviewsAreFinal(Next(h, run[0].at, run[0].event), run[1..], a);
    }
  }
}
