/** What publishing, disabling and priced creation achieve when they commit, and when an uncontended one does commit. */
module PolicyEffects {
  import opened Base
  import opened Calculation
  import opened PolicyHistory
  import T = Transactions

  // ---- What a commit changes ----

  /** A publication appends its tariff under the next number of its key and makes it the key's current policy. */
  lemma PublishTakesEffect(s: System, t: TxnId)
    requires SystemInv(s) && Allowed(s, Commit(t)) && s.txns[t].job.Publish?
    ensures var job, db, e := s.txns[t].job, s.db, Act(s, Commit(t)).db;
      var key, n := Key(job.draft.service, job.draft.currency), |s.db.versions|;
      && |e.versions| == n + 1 && e.versions[..n] == db.versions
      && e.versions[n].id == job.id && e.versions[n].draft == job.draft && e.versions[n].publishedBy == job.reviewer
      && e.versions[n].rule == "half_up_once_v1" && e.versions[n].version == CountKey(db.versions, key) + 1
      && key in e.pointers && e.pointers[key] == Some(job.id)
      && FindPolicy(e.versions, job.id) == Some(e.versions[n])
      && (forall other | other != key :: other in e.pointers <==> other in db.pointers)
      && (forall other | other != key && other in db.pointers :: e.pointers[other] == db.pointers[other])
      && e.catalog == db.catalog && e.requests == db.requests
  {
    hide HistoryOk, PointersOk, RequestsOk, ValidDraft, MaxVersion, CountKey, Conflict;
    FreshFor(s, t);
    MaxIsCount(s.db.versions, JobKey(s.txns[t].job));
  }

  /** A withdrawal finds the policy it expects current, empties that pointer and touches nothing else. */
  lemma DisableTakesEffect(s: System, t: TxnId)
    requires SystemInv(s) && Allowed(s, Commit(t)) && s.txns[t].job.Disable?
    ensures var job, db, e := s.txns[t].job, s.db, Act(s, Commit(t)).db;
      && job.key in db.pointers && db.pointers[job.key] == Some(job.expected)
      && job.key in e.pointers && e.pointers[job.key] == None
      && e.pointers.Keys == db.pointers.Keys
      && (forall other | other != job.key && other in db.pointers :: e.pointers[other] == db.pointers[other])
      && e.versions == db.versions && e.requests == db.requests && e.catalog == db.catalog
  {
    hide DbOk, MaxVersion, Conflict;
    FreshFor(s, t);
  }

  /** A priced creation adds one request with the proposed fare and the current policy, and touches nothing else. */
  lemma CreateTakesEffect(s: System, t: TxnId)
    requires SystemInv(s) && Allowed(s, Commit(t)) && s.txns[t].job.Create?
    ensures var job, db, e := s.txns[t].job, s.db, Act(s, Commit(t)).db;
      && e == db.(requests := e.requests) && |e.requests| == |db.requests| + 1 && db.requests <= e.requests
      && var request := e.requests[|db.requests|];
      && request.service == job.service && Some(request.fare) == job.fare && Some(request.named) == job.policyVersion
      && var key := Key(job.service, "PKR");
      && key in db.pointers && db.pointers[key] == Some(request.snapshot.id) && request.named == request.snapshot.id
      && HasPolicy(db.versions, request.snapshot)
  {
    hide HistoryOk, RequestsOk, MaxVersion, FindPolicy, HasPolicy, T.FareAllowed, Conflict;
    FreshFor(s, t);
    SnapshotIsCurrent(s.db, s.txns[t]);
  }

  // ---- When an uncontended transaction commits ----

  function Advances(t: TxnId, n: nat): seq<Action> {
    if n == 0 then [Commit(t)] else [Advance(t)] + Advances(t, n - 1)
  }

  /** A transaction from its beginning to its commit with nobody in between. */
  function Solo(t: TxnId, job: Job): seq<Action> {
    [Begin(t, job)] + Advances(t, Statements(job))
  }

  ghost predicate Uncontended(s: System, t: TxnId, job: Job) {
    forall u | u in s.txns && u != t ::
      s.txns[u].pc == 0 || JobKey(s.txns[u].job).service != JobKey(job).service || (job.Create? && s.txns[u].job.Create?)
  }

  predicate AllPass(db: Db, x: Txn, n: nat)
    decreases n
  {
    n == 0 || (Passes(db, x) && AllPass(db, Executed(db, x), n - 1))
  }

  /** Nobody waits, so the transaction reaches its commit exactly when each of its checks passes on the same tables. */
  lemma {:induction false} AdvancesCommit(s: System, t: TxnId, n: nat) returns (z: System)
    requires t in s.txns && Uncontended(s, t, s.txns[t].job) && s.txns[t].pc + n == Statements(s.txns[t].job)
    ensures Schedule(s, Advances(t, n)) <==> AllPass(s.db, s.txns[t], n)
    ensures Schedule(s, Advances(t, n)) && SystemInv(s) ==>
      && SystemInv(z) && Allowed(z, Commit(t)) && z.db == s.db && z.txns[t].job == s.txns[t].job
      && z.txns - {t} == s.txns - {t}
      && Outcome(s, Advances(t, n)) == Act(z, Commit(t))
    decreases n
  {
    hide Passes, SystemInv;
    z := s;
    if n == 0 {
      assert Advances(t, 0)[1..] == [];
    } else {
      var rest := Advances(t, n - 1);
      assert Advances(t, n)[0] == Advance(t) && Advances(t, n)[1..] == rest;
      NobodyConflicts(s, t);
      var y := Act(s, Advance(t));
      if Passes(s.db, s.txns[t]) {
        z := AdvancesCommit(y, t, n - 1);
        if SystemInv(s) { ActKeepsInv(s, Advance(t)); }
      } else { NotAllowed(y, t, n - 1); }
    }
  }

  lemma NobodyConflicts(s: System, t: TxnId)
    requires t in s.txns && Uncontended(s, t, s.txns[t].job) && s.txns[t].pc < Statements(s.txns[t].job)
    ensures Allowed(s, Advance(t))
    ensures Executed(s.db, s.txns[t]).job == s.txns[t].job && Executed(s.db, s.txns[t]).pc == s.txns[t].pc + 1
  {
    hide Passes, MaxVersion, FindPolicy;
  }

  lemma NotAllowed(s: System, t: TxnId, n: nat)
    requires t !in s.txns
    ensures !Schedule(s, Advances(t, n))
  {
  }

  // ---- The exact conditions, over the committed rows ----

  predicate Accepts(db: Db, job: Job) {
    match job
    case Publish(draft, _, reviewer) =>
      && ValidDraft(draft) && reviewer != ""
      && draft.service in db.catalog && db.catalog[draft.service] == Listing(true, true)
    case Disable(key, expected, reviewer) =>
      reviewer != "" && key.service in db.catalog && key in db.pointers && db.pointers[key] == Some(expected)
    case Create(service, named, fare) =>
      && service in db.catalog && db.catalog[service] == Listing(true, true)
      && named.Some? && Key(service, "PKR") in db.pointers && db.pointers[Key(service, "PKR")] == named
      && fare.Some? && fare.value.currency == "PKR" && 0 < fare.value.amount <= 1_000_000_000_000
  }

  lemma CurrentIsFound(db: Db, key: Key)
    requires PointersOk(db) && key in db.pointers && db.pointers[key].Some?
    ensures FindPolicy(db.versions, db.pointers[key].value).Some?
  {
  }

  lemma ChecksAreAccepts(db: Db, job: Job)
    requires PointersOk(db)
    ensures AllPass(db, Txn(job, 0, 0, None, None), Statements(job)) <==> Accepts(db, job)
  {
    hide ValidDraft, MaxVersion, FindPolicy, PointersOk;
    var x := Txn(job, 0, 0, None, None);
    var key := JobKey(job);
    if key in db.pointers && db.pointers[key].Some? { CurrentIsFound(db, key); }
    var x1 := Executed(db, x);
    var x2 := Executed(db, x1);
    var x3 := Executed(db, x2);
    var x4 := Executed(db, x3);
    if job.Disable? {
      assert AllPass(db, x, 2) <==> Passes(db, x) && AllPass(db, x1, 1);
      assert AllPass(db, x1, 1) <==> Passes(db, x1) && AllPass(db, x2, 0);
    } else {
      assert AllPass(db, x, 4) <==> Passes(db, x) && AllPass(db, x1, 3);
      assert AllPass(db, x1, 3) <==> Passes(db, x1) && AllPass(db, x2, 2);
      assert AllPass(db, x2, 2) <==> Passes(db, x2) && AllPass(db, x3, 1);
      assert AllPass(db, x3, 1) <==> Passes(db, x3) && AllPass(db, x4, 0);
    }
  }

  /** With no conflicting transaction in flight, a job runs to its commit exactly when the committed rows accept it. */
  lemma UncontendedCommits(s: System, t: TxnId, job: Job) returns (z: System)
    requires SystemInv(s) && t !in s.txns && Uncontended(s, t, job) && (job.Publish? ==> FreshId(s, job.id))
    ensures Schedule(s, Solo(t, job)) <==> Accepts(s.db, job)
    ensures Accepts(s.db, job) ==>
      && SystemInv(z) && Allowed(z, Commit(t)) && z.db == s.db && z.txns[t].job == job && z.txns - {t} == s.txns
      && Outcome(s, Solo(t, job)) == Act(z, Commit(t))
  {
    hide Passes, SystemInv, Accepts, Advances, AllPass, FreshId;
    var run := Advances(t, Statements(job));
    assert Solo(t, job)[0] == Begin(t, job) && Solo(t, job)[1..] == run;
    var y := Act(s, Begin(t, job));
    ActKeepsInv(s, Begin(t, job));
    PointersOfInv(s);
    ChecksAreAccepts(s.db, job);
    z := AdvancesCommit(y, t, Statements(job));
    assert y.txns - {t} == s.txns;
  }

  lemma PointersOfInv(s: System)
    requires SystemInv(s)
    ensures PointersOk(s.db)
  {
  }

  /** A policy just published is the one that creations can name, until it is withdrawn; then none can be named. */
  lemma PublishedIsNameable(s: System, t: TxnId, job: Job, u: TxnId, named: nat, fare: Money)
    requires SystemInv(s) && t !in s.txns && Uncontended(s, t, job) && Accepts(s.db, job)
    requires job.Publish? && FreshId(s, job.id) && 0 < fare.amount <= 1_000_000_000_000 && fare.currency == "PKR"
    requires u !in s.txns && Uncontended(s, u, job)
    ensures Schedule(s, Solo(t, job))
    ensures Schedule(Outcome(s, Solo(t, job)), Solo(u, Create(job.draft.service, Some(named), Some(fare)))) <==> named == job.id
  {
    hide SystemInv, Schedule, Outcome, Solo, HasPolicy, ValidPolicy, CountKey;
    var z := UncontendedCommits(s, t, job);
    PublishTakesEffect(z, t);
    ActKeepsInv(z, Commit(t));
    var y := Act(z, Commit(t));
    assert y.txns == s.txns;
    var create := Create(job.draft.service, Some(named), Some(fare));
    var _ := UncontendedCommits(y, u, create);
  }

  /** After a withdrawal no priced creation is accepted for the key, whatever it names, until the next publication. */
  lemma WithdrawnIsNotNameable(s: System, t: TxnId, job: Job, u: TxnId, named: Option<nat>, fare: Option<Money>)
    requires SystemInv(s) && t !in s.txns && Uncontended(s, t, job) && Accepts(s.db, job)
    requires job.Disable? && job.key.currency == "PKR"
    requires u !in s.txns && Uncontended(s, u, job)
    ensures Schedule(s, Solo(t, job))
    ensures !Schedule(Outcome(s, Solo(t, job)), Solo(u, Create(job.key.service, named, fare)))
  {
    hide SystemInv, Schedule, Outcome, Solo, HasPolicy, ValidPolicy, CountKey;
    var z := UncontendedCommits(s, t, job);
    DisableTakesEffect(z, t);
    ActKeepsInv(z, Commit(t));
    var y := Act(z, Commit(t));
    assert y.txns == s.txns;
    var _ := UncontendedCommits(y, u, Create(job.key.service, named, fare));
  }
}
