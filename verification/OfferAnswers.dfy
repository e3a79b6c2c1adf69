/** What each driver response answers and stores, over the columns stored before it: no sweep needs to have run. */
module OfferAnswers {
  import opened Base
  import opened MarketState
  import opened Expiry
  import opened Fares
  import opened Transactions
  import opened Invariants
  import opened Preservation
  import opened Runs
  import opened Meanings

  // ---- Quotes ----

  /** A quote is the proposed fare of an open ride; a ride that is gone, overdue or taken is not found. */
  lemma MarketAnswers(s: State, now: Time, r: RideId)
    ensures var q := Market(s, now, r);
      && (q.Ok? <==> OpenRide(s, r, now))
      && (q.Ok? ==> q.value.ride == r && s.rides[r].fare == Some(Money(q.value.amount, q.value.currency)))
      && (q == Err(RideNotFound) <==> r !in s.rides || s.rides[r].expiresAt <= now || r in s.trips)
      && (q.Err? ==> q.error.RideNotFound? || q.error.RideNotOpen?)
  {
  }

  // ---- Offers ----

  /** The driver's amount on an open ride of somebody else's, in an open window, with the driver ready. */
  ghost predicate CanOffer(s: State, now: Time, k: Pair) {
    && OpenRide(s, k.ride, now) && k.driver != s.rides[k.ride].rider
    && OpenWindow(s, k, now) && DriverReady(s, k.driver, s.rides[k.ride].service, now)
  }

  lemma DecisionIff(s: State, now: Time, k: Pair, amount: int, minimum: int, maximum: int, currency: string)
    ensures OfferDecision(Settle(s, now), now, k, amount, minimum, maximum, currency).Ok?
       <==> && CanOffer(s, now, k) && s.rides[k.ride].fare.value.currency == currency
            && minimum <= amount <= maximum
            && 0 < amount <= 1_300_000_000_000 && CurrencyCode(currency) && k !in s.offers
  {
    hide Settle, Eligible, DriverReady, CurrencyCode;
    var x := Settle(s, now);
    SweptFrame(s, now);
    SweepKeepsOpenRide(s, now, k);
    if k.ride in s.rides {
      SweptDriver(s, now, k.driver, s.rides[k.ride].service);
      EligibleMeans(x, k.driver, s.rides[k.ride].service, now);
    }
  }

  /** For any quote whatever: the exact condition under which a driver's own amount is taken. */
  lemma SubmitSucceedsIff(s: State, now: Time, q: Quote, d: UserId, amount: int)
    ensures Submit(s, now, q, d, amount).result.Ok?
       <==> && CanOffer(s, now, Pair(q.ride, d)) && s.rides[q.ride].fare.value.currency == q.currency
            && Minimum(q.amount) <= amount <= Maximum(q.amount)
            && 0 < amount <= 1_300_000_000_000 && CurrencyCode(q.currency) && Pair(q.ride, d) !in s.offers
  {
    hide Settle, OfferDecision, CanOffer, CurrencyCode, Minimum, Maximum;
    DecisionIff(s, now, Pair(q.ride, d), amount, Minimum(q.amount), Maximum(q.amount), q.currency);
  }

  /** An open window has had no offer, so under a true quote nothing else can refuse. */
  lemma OpenWindowHasNoOffer(s: State, now: Time, k: Pair)
    requires Inv(s, now) && OpenWindow(s, k, now)
    ensures k !in s.offers
  {
    hide RidesOk, TripsOk, DriversOk, FleetOk;
    assert OpportunityOk(s, k);
  }

  lemma QuotedAmountsAllowed(s: State, now: Time, q: Quote)
    requires Inv(s, now) && Quoted(s, q)
    ensures CurrencyCode(q.currency) && 0 < q.amount <= MAX_FARE_MINOR
  {
    hide PairsOk, TripsOk, DriversOk, FleetOk, CurrencyCode;
    assert RideAgrees(s.rides[q.ride], TripRowOf(s, q.ride));
  }

  /** With a quote of the ride's fare, every amount has exactly one answer, decided by the columns before the call. */
  lemma QuotedSubmitAnswers(s: State, now: Time, q: Quote, d: UserId, amount: int)
    requires Inv(s, now) && Quoted(s, q)
    ensures var result, k := Submit(s, now, q, d, amount).result, Pair(q.ride, d);
      && (result.Ok? <==> CanOffer(s, now, k) && 90 * q.amount <= 100 * amount <= 130 * q.amount)
      && (result == Err(AmountOutOfRange) <==> !(90 * q.amount <= 100 * amount <= 130 * q.amount))
      && (result == Err(RideNotOpen)
          <==> 90 * q.amount <= 100 * amount <= 130 * q.amount && !OpenRide(s, q.ride, now))
      && (result == Err(OpportunityNotOpen)
          <==> && 90 * q.amount <= 100 * amount <= 130 * q.amount && OpenRide(s, q.ride, now)
               && d != s.rides[q.ride].rider && !OpenWindow(s, k, now))
      && (result.Err? ==> result.error in {AmountOutOfRange, RideNotOpen, OpportunityNotOpen, DriverIneligible})
  {
    hide Inv, Settle, DriverReady, CurrencyCode, Eligible, Minimum, Maximum;
    var k := Pair(q.ride, d);
    QuotedAmountsAllowed(s, now, q);
    BoundsMeanPercentages(q.amount, amount);
    SubmitSucceedsIff(s, now, q, d, amount);
    SweptFrame(s, now);
    SweepKeepsOpenRide(s, now, k);
    if OpenWindow(s, k, now) { OpenWindowHasNoOffer(s, now, k); }
  }

  /** The proposed fare is always within its own bounds: accepting it is submitting it. */
  lemma AcceptProposedIsSubmit(s: State, now: Time, q: Quote, d: UserId)
    requires Inv(s, now) && Quoted(s, q)
    ensures AcceptProposed(s, now, q, d) == Submit(s, now, q, d, q.amount)
    ensures AcceptProposed(s, now, q, d).result.Ok? <==> CanOffer(s, now, Pair(q.ride, d))
  {
    hide Inv, Upsert, CanOffer, Minimum, Maximum;
    QuotedAmountsAllowed(s, now, q);
    BoundsMeanPercentages(q.amount, q.amount);
    QuotedSubmitAnswers(s, now, q, d, q.amount);
  }

  /** The stored and replied row, column by column. */
  predicate StoredOffer(s: State, y: State, reply: Offer, now: Time, k: Pair, amount: int, currency: string) {
    && k in y.offers && y.offers[k] == reply
    && reply.amount == amount && reply.currency == currency
    && reply.status == Pending && reply.decidedAt == None
    && reply.createdAt == now && reply.updatedAt == now && reply.expiresAt == now + s.policy.offerTtl * 1_000_000
    && k.ride in s.rides && k.driver in s.fleet.selections && k.driver in s.fleet.profiles
    && var service, v := s.rides[k.ride].service, s.fleet.selections[k.driver];
    && service in s.fleet.catalog && v in s.fleet.vehicles
    && reply.context.vehicle == v && reply.context.details == s.fleet.vehicles[v].details
    && reply.context.service == service && reply.context.serviceName == s.fleet.catalog[service].displayName
    && reply.context.driverName == s.fleet.profiles[k.driver].displayName
    && reply.context.fare == Money(amount, currency)
  }

  lemma UpsertStores(s: State, now: Time, k: Pair, amount: int, minimum: int, maximum: int, currency: string)
    ensures var o := Upsert(s, now, k, amount, minimum, maximum, currency);
      if o.result.Err? then o.state == s
      else
        && StoredOffer(s, o.state, o.result.value, now, k, amount, currency)
        && k in s.opportunities && k in o.state.opportunities
        && o.state.opportunities[k] == s.opportunities[k].(status := Offered, respondedAt := Some(now))
        && OnlyPairWritten(s, o.state, now, k)
  {
    hide Settle, Present, Busy, CurrencyCode;
    SweptFrame(s, now);
    SweepKeepsOpenRide(s, now, k);
    if k.ride in s.rides { SweptRide(s, now, k.ride); }
  }

  /** A taken amount is the driver's own: stored and replied in the quote's currency, and the window counts as answered. */
  lemma SubmitStores(s: State, now: Time, q: Quote, d: UserId, amount: int)
    ensures var o, k := Submit(s, now, q, d, amount), Pair(q.ride, d);
      if o.result.Err? then o.state == s
      else
        && StoredOffer(s, o.state, o.result.value, now, k, amount, q.currency)
        && k in s.opportunities && k in o.state.opportunities
        && o.state.opportunities[k] == s.opportunities[k].(status := Offered, respondedAt := Some(now))
        && OnlyPairWritten(s, o.state, now, k)
  {
    hide Settle, Upsert, StoredOffer, OnlyPairWritten, Minimum, Maximum;
    UpsertStores(s, now, Pair(q.ride, d), amount, Minimum(q.amount), Maximum(q.amount), q.currency);
  }

  // ---- Skips ----

  /** A window can be skipped exactly while it and its ride are open; only the answer and its time are written. */
  lemma SkipAnswers(s: State, now: Time, k: Pair)
    ensures var o := Skip(s, now, k);
      && (o.result.Ok? <==> && OpenWindow(s, k, now)
                            && k.ride in s.rides && s.rides[k.ride].status == RideRequested && now < s.rides[k.ride].expiresAt)
      && (if o.result.Err? then o == Tx(s, Err(OpportunityNotOpen))
          else
            && k in o.state.opportunities
            && o.state.opportunities[k] == s.opportunities[k].(status := DriverSkipped, respondedAt := Some(now))
            && (k in s.offers <==> k in o.state.offers)
            && (k in s.offers ==> k in Settle(s, now).offers && o.state.offers[k] == Settle(s, now).offers[k])
            && OnlyPairWritten(s, o.state, now, k))
  {
    hide Settle;
    SweptFrame(s, now);
    if k.ride in s.rides { SweptRide(s, now, k.ride); }
    if k in s.opportunities { SweptOpportunity(s, now, k); }
  }
}
