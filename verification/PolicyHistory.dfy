/**
 * Publishing and disabling pricing policies against priced ride creation: statements of any number of
 * transactions interleave, each reading the latest committed rows, under shared and exclusive service locks.
 * The pointer row's own locks are left out, so what follows rests on the service lock alone.
 */
module PolicyHistory {
  import opened Base
  import opened MarketState
  import opened Calculation
  import T = Transactions

  datatype Key = Key(service: ServiceCode, currency: string)
  datatype Listing = Listing(active: bool, visible: bool)
  datatype PricedRequest = PricedRequest(service: ServiceCode, named: nat, fare: Money, snapshot: Policy)

  /** Committed tables; versions and requests are plain lists of rows in insertion order. */
  datatype Db = Db(
    catalog: map<ServiceCode, Listing>, versions: seq<Policy>, pointers: map<Key, Option<nat>>,
    requests: seq<PricedRequest>)

  datatype Job =
    | Publish(draft: Draft, id: nat, reviewer: string)
    | Disable(key: Key, expected: nat, reviewer: string)
    | Create(service: ServiceCode, policyVersion: Option<nat>, fare: Option<Money>)

  /** A transaction in flight and what its statements have read so far. */
  datatype Txn = Txn(job: Job, pc: nat, version: int, pointer: Option<nat>, policy: Option<Policy>)

  function PolicyKey(p: Policy): Key {
    Key(p.draft.service, p.draft.currency)
  }

  function JobKey(job: Job): Key {
    match job
    case Publish(draft, _, _) => Key(draft.service, draft.currency)
    case Disable(key, _, _) => key
    case Create(service, _, _) => Key(service, "PKR")
  }

  /** The number of statements before the commit. */
  function Statements(job: Job): nat {
    match job
    case Publish(_, _, _) => 4
    case Disable(_, _, _) => 2
    case Create(_, _, _) => 4
  }

  // ---- The service lock: shared by creations, exclusive to publications and withdrawals ----

  predicate Conflict(x: Txn, y: Txn) {
    && x.pc >= 1 && y.pc >= 1
    && JobKey(x.job).service == JobKey(y.job).service
    && !(x.job.Create? && y.job.Create?)
  }

  // ---- Statements ----

  predicate Listed(db: Db, service: ServiceCode) {
    service in db.catalog && db.catalog[service].active && db.catalog[service].visible
  }

  function MaxVersion(versions: seq<Policy>, key: Key): int {
    if versions == [] then 0
    else
      var last := versions[|versions| - 1];
      var rest := MaxVersion(versions[..|versions| - 1], key);
      if PolicyKey(last) == key && last.version > rest then last.version else rest
  }

  predicate HasPolicy(versions: seq<Policy>, p: Policy) {
    exists i | 0 <= i < |versions| :: versions[i] == p
  }

  function FindPolicy(versions: seq<Policy>, id: nat): (p: Option<Policy>)
    ensures p.Some? ==> HasPolicy(versions, p.value) && p.value.id == id
    ensures p.None? ==> forall i | 0 <= i < |versions| :: versions[i].id != id
  {
    if versions == [] then None
    else
      var n := |versions| - 1;
      if versions[n].id == id then Some(versions[n])
      else
        var p := FindPolicy(versions[..n], id);
        assert forall i | 0 <= i < n :: versions[..n][i] == versions[i];
        p
  }

  /** Whether the next statement, or the check after it, lets the transaction go on. */
  predicate Passes(db: Db, x: Txn) {
    var key := JobKey(x.job);
    match x.job
    case Publish(draft, _, reviewer) =>
      x.pc == 0 ==> ValidDraft(draft) && reviewer != "" && Listed(db, key.service)
    case Disable(_, expected, reviewer) =>
      && (x.pc == 0 ==> reviewer != "" && key.service in db.catalog)
      && (x.pc == 1 ==> key in db.pointers && db.pointers[key] == Some(expected))
    case Create(_, named, fare) =>
      && (x.pc == 0 ==> named.Some? && fare.Some? && fare.value.currency == "PKR" && Listed(db, key.service))
      && (x.pc == 1 ==> key in db.pointers && db.pointers[key].Some?)
      && (x.pc == 2 ==>
            && x.pointer.Some? && FindPolicy(db.versions, x.pointer.value).Some?
            && named == Some(FindPolicy(db.versions, x.pointer.value).value.id))
      && (x.pc == 3 ==> T.FareAllowed(fare))
  }

  function Executed(db: Db, x: Txn): Txn {
    var y := x.(pc := x.pc + 1);
    if x.job.Publish? && x.pc == 1 then y.(version := MaxVersion(db.versions, JobKey(x.job)) + 1)
    else if x.job.Create? && x.pc == 1 && JobKey(x.job) in db.pointers then y.(pointer := db.pointers[JobKey(x.job)])
    else if x.job.Create? && x.pc == 2 && x.pointer.Some? then y.(policy := FindPolicy(db.versions, x.pointer.value))
    else y
  }

  function NewVersion(x: Txn): Policy
    requires x.job.Publish?
  {
    Policy(x.job.id, x.job.draft, x.version, RULE, x.job.reviewer)
  }

  /** The rows a finished transaction has written, made visible. */
  function Committed(db: Db, x: Txn): Db {
    match x.job
    case Publish(_, id, _) =>
      db.(versions := db.versions + [NewVersion(x)], pointers := db.pointers[JobKey(x.job) := Some(id)])
    case Disable(key, _, _) => db.(pointers := db.pointers[key := None])
    case Create(service, named, fare) =>
      if named.None? || fare.None? || x.policy.None? then db
      else db.(requests := db.requests + [PricedRequest(service, named.value, fare.value, x.policy.value)])
  }

  // ---- Actions ----

  type TxnId = nat
  datatype System = System(db: Db, txns: map<TxnId, Txn>)

  datatype Action =
    | Begin(t: TxnId, job: Job)
    | Advance(t: TxnId)
    | Rollback(t: TxnId)
    | Commit(t: TxnId)
    | Relist(service: ServiceCode, listing: Listing)

  ghost predicate FreshId(s: System, id: nat) {
    && (forall i | 0 <= i < |s.db.versions| :: s.db.versions[i].id != id)
    && (forall u | u in s.txns && s.txns[u].job.Publish? :: s.txns[u].job.id != id)
  }

  ghost predicate Allowed(s: System, a: Action) {
    match a
    case Begin(t, job) => t !in s.txns && (job.Publish? ==> FreshId(s, job.id))
    case Advance(t) =>
      && t in s.txns && s.txns[t].pc < Statements(s.txns[t].job)
      && (Passes(s.db, s.txns[t]) ==>
            forall u | u in s.txns && u != t :: !Conflict(Executed(s.db, s.txns[t]), s.txns[u]))
    case Rollback(t) => t in s.txns
    case Commit(t) => t in s.txns && s.txns[t].pc == Statements(s.txns[t].job)
    case Relist(service, _) => forall u | u in s.txns :: !(s.txns[u].pc >= 1 && JobKey(s.txns[u].job).service == service)
  }

  function Act(s: System, a: Action): System
    requires Allowed(s, a)
  {
    match a
    case Begin(t, job) => s.(txns := s.txns[t := Txn(job, 0, 0, None, None)])
    case Advance(t) =>
      if Passes(s.db, s.txns[t]) then s.(txns := s.txns[t := Executed(s.db, s.txns[t])]) else s.(txns := s.txns - {t})
    case Rollback(t) => s.(txns := s.txns - {t})
    case Commit(t) => s.(db := Committed(s.db, s.txns[t]), txns := s.txns - {t})
    case Relist(service, listing) => s.(db := s.db.(catalog := s.db.catalog[service := listing]))
  }

  // ---- Reachable systems ----

  function CountKey(versions: seq<Policy>, key: Key): nat {
    if versions == [] then 0
    else
      var n := |versions| - 1;
      CountKey(versions[..n], key) + if PolicyKey(versions[n]) == key then 1 else 0
  }

  /** Each row is a valid policy and carries the next number of its key. */
  ghost predicate HistoryOk(versions: seq<Policy>) {
    forall i | 0 <= i < |versions| ::
      versions[i].version == CountKey(versions[..i], PolicyKey(versions[i])) + 1 && ValidPolicy(versions[i])
  }

  ghost predicate IdsDistinct(versions: seq<Policy>) {
    forall i, j | 0 <= i < j < |versions| :: versions[i].id != versions[j].id
  }

  /** A pointer is empty or names a version of its own key. */
  ghost predicate PointersOk(db: Db) {
    forall key | key in db.pointers && db.pointers[key].Some? ::
      exists i | 0 <= i < |db.versions| :: db.versions[i].id == db.pointers[key].value && PolicyKey(db.versions[i]) == key
  }

  ghost predicate RequestsOk(db: Db) {
    forall i | 0 <= i < |db.requests| ::
      && HasPolicy(db.versions, db.requests[i].snapshot)
      && db.requests[i].snapshot.id == db.requests[i].named
      && PolicyKey(db.requests[i].snapshot) == Key(db.requests[i].service, "PKR")
      && T.FareAllowed(Some(db.requests[i].fare))
  }

  /** What a transaction has read still holds of the committed rows. */
  ghost predicate ReadsHold(db: Db, x: Txn) {
    var key := JobKey(x.job);
    match x.job
    case Publish(draft, _, reviewer) =>
      && (x.pc >= 1 ==> ValidDraft(draft) && Listed(db, key.service))
      && (x.pc >= 2 ==> x.version == MaxVersion(db.versions, key) + 1)
    case Disable(_, expected, _) =>
      x.pc >= 2 ==> key in db.pointers && db.pointers[key] == Some(expected)
    case Create(_, named, fare) =>
      && (x.pc >= 1 ==> named.Some? && fare.Some? && Listed(db, key.service))
      && (x.pc >= 2 ==> x.pointer.Some? && key in db.pointers && db.pointers[key] == x.pointer)
      && (x.pc >= 3 ==>
            && x.policy.Some? && x.policy == FindPolicy(db.versions, x.pointer.value)
            && named == Some(x.policy.value.id))
      && (x.pc >= 4 ==> T.FareAllowed(fare))
  }

  ghost predicate IdsFresh(s: System) {
    && (forall u, i | u in s.txns && s.txns[u].job.Publish? && 0 <= i < |s.db.versions| ::
          s.db.versions[i].id != s.txns[u].job.id)
    && (forall t, u | t in s.txns && u in s.txns && t != u && s.txns[t].job.Publish? && s.txns[u].job.Publish? ::
          s.txns[t].job.id != s.txns[u].job.id)
  }

  ghost predicate Serialised(s: System) {
    forall t, u | t in s.txns && u in s.txns && t != u :: !Conflict(s.txns[t], s.txns[u])
  }

  ghost predicate DbOk(db: Db) {
    HistoryOk(db.versions) && IdsDistinct(db.versions) && PointersOk(db) && RequestsOk(db)
  }

  ghost predicate SystemInv(s: System) {
    && DbOk(s.db) && IdsFresh(s) && Serialised(s)
    && forall t | t in s.txns :: ReadsHold(s.db, s.txns[t])
  }

  // ---- Version numbers ----

  /** With every row numbered in turn, the greatest version is the number of versions. */
  lemma {:induction false} MaxIsCount(versions: seq<Policy>, key: Key)
    requires HistoryOk(versions)
    ensures MaxVersion(versions, key) == CountKey(versions, key)
  {
    if versions != [] {
      var n := |versions| - 1;
      HistoryPrefix(versions, n);
      MaxIsCount(versions[..n], key);
    }
  }

  lemma HistoryPrefix(versions: seq<Policy>, n: nat)
    requires HistoryOk(versions) && n <= |versions|
    ensures HistoryOk(versions[..n])
  {
    forall i | 0 <= i < n ensures versions[..n][..i] == versions[..i] {
    }
  }

  ghost predicate HasVersion(versions: seq<Policy>, key: Key, v: int) {
    exists i | 0 <= i < |versions| :: PolicyKey(versions[i]) == key && versions[i].version == v
  }

  lemma LastVersion(versions: seq<Policy>, key: Key, v: int)
    requires versions != []
    ensures var n := |versions| - 1;
            HasVersion(versions, key, v)
            <==> HasVersion(versions[..n], key, v) || (PolicyKey(versions[n]) == key && versions[n].version == v)
  {
    var n := |versions| - 1;
    assert forall i | 0 <= i < n :: versions[..n][i] == versions[i];
  }

  /** The versions of a key are exactly the numbers 1 to n. */
  lemma {:induction false} VersionsAreConsecutive(versions: seq<Policy>, key: Key, v: int)
    requires HistoryOk(versions)
    ensures HasVersion(versions, key, v) <==> 1 <= v <= CountKey(versions, key)
  {
    if versions != [] {
      var n := |versions| - 1;
      HistoryPrefix(versions, n);
      VersionsAreConsecutive(versions[..n], key, v);
      LastVersion(versions, key, v);
    }
  }

  lemma FoundIsListed(versions: seq<Policy>, id: nat)
    ensures var p := FindPolicy(versions, id);
            p.Some? ==> exists i | 0 <= i < |versions| :: versions[i].id == id
  {
    var p := FindPolicy(versions, id);
    if p.Some? {
      var i :| 0 <= i < |versions| && versions[i] == p.value;
      assert versions[i].id == id;
    }
  }

  lemma {:induction false} CountGrows(versions: seq<Policy>, i: nat, j: nat, key: Key)
    requires i <= j <= |versions|
    ensures CountKey(versions[..i], key) <= CountKey(versions[..j], key)
    ensures i < j && PolicyKey(versions[i]) == key ==> CountKey(versions[..i], key) < CountKey(versions[..j], key)
    decreases j - i
  {
    if i < j {
      assert versions[..j][..j - 1] == versions[..j - 1];
      CountGrows(versions, i, j - 1, key);
    }
  }

  /** Two rows of one key never carry the same version: the unique key never fires. */
  lemma VersionsAreDistinct(versions: seq<Policy>, i: nat, j: nat)
    requires HistoryOk(versions) && i < j < |versions| && PolicyKey(versions[i]) == PolicyKey(versions[j])
    ensures versions[i].version < versions[j].version
  {
    CountGrows(versions, i, j, PolicyKey(versions[i]));
  }

  // ---- Each action keeps the invariant ----

  lemma AdvanceKeepsReads(db: Db, x: Txn)
    requires ReadsHold(db, x) && Passes(db, x)
    ensures ReadsHold(db, Executed(db, x))
  {
    hide MaxVersion, ValidDraft, T.FareAllowed;
  }

  lemma AppendKeepsHistory(db: Db, x: Txn)
    requires DbOk(db) && ReadsHold(db, x) && x.job.Publish? && x.pc == Statements(x.job)
    requires forall i | 0 <= i < |db.versions| :: db.versions[i].id != x.job.id
    ensures HistoryOk(Committed(db, x).versions)
  {
    hide MaxVersion, CountKey, ValidDraft;
    var n := |db.versions|;
    var versions := db.versions + [NewVersion(x)];
    MaxIsCount(db.versions, JobKey(x.job));
    assert versions[..n] == db.versions;
    forall i | 0 <= i < n ensures versions[..i] == db.versions[..i] && versions[i] == db.versions[i] {
    }
  }

  lemma CommitKeepsDb(db: Db, x: Txn)
    requires DbOk(db) && ReadsHold(db, x) && x.pc == Statements(x.job)
    requires x.job.Publish? ==> forall i | 0 <= i < |db.versions| :: db.versions[i].id != x.job.id
    ensures DbOk(Committed(db, x))
  {
    hide MaxVersion, HistoryOk, ValidDraft, T.FareAllowed, FindPolicy;
    var e := Committed(db, x);
    if x.job.Publish? {
      AppendKeepsHistory(db, x);
      var n := |db.versions|;
      assert e.versions[n] == NewVersion(x);
      assert forall i | 0 <= i < n :: e.versions[i] == db.versions[i];
      forall key | key in e.pointers && e.pointers[key].Some?
        ensures exists i | 0 <= i < |e.versions| :: e.versions[i].id == e.pointers[key].value && PolicyKey(e.versions[i]) == key
      {
        if key == JobKey(x.job) { assert e.versions[n].id == e.pointers[key].value; }
        else {
          var i :| 0 <= i < n && db.versions[i].id == db.pointers[key].value && PolicyKey(db.versions[i]) == key;
          assert e.versions[i].id == e.pointers[key].value;
        }
      }
      forall p: Policy | HasPolicy(db.versions, p) ensures HasPolicy(e.versions, p) {
        var i :| 0 <= i < n && db.versions[i] == p;
        assert e.versions[i] == p;
      }
    } else if x.job.Create? {
      SnapshotIsCurrent(db, x);
    }
  }

  /** The policy that a creation has read is the version its key points to. */
  lemma SnapshotIsCurrent(db: Db, x: Txn)
    requires IdsDistinct(db.versions) && PointersOk(db) && ReadsHold(db, x) && x.job.Create? && x.pc >= 3
    ensures x.policy.Some? && HasPolicy(db.versions, x.policy.value)
    ensures JobKey(x.job) in db.pointers && db.pointers[JobKey(x.job)] == Some(x.policy.value.id)
    ensures PolicyKey(x.policy.value) == JobKey(x.job) && x.job.policyVersion == Some(x.policy.value.id)
    ensures Listed(db, JobKey(x.job).service)
  {
    hide T.FareAllowed;
    var key := JobKey(x.job);
    var i :| 0 <= i < |db.versions| && db.versions[i].id == db.pointers[key].value && PolicyKey(db.versions[i]) == key;
    var j :| 0 <= j < |db.versions| && db.versions[j] == x.policy.value;
    assert i == j;
  }

  /** A commit leaves what every other transaction has read intact: the service lock kept them apart. */
  lemma CommitKeepsOther(db: Db, x: Txn, y: Txn)
    requires ReadsHold(db, x) && ReadsHold(db, y) && x.pc == Statements(x.job) && !Conflict(x, y)
    requires x.job.Publish? ==> forall i | 0 <= i < |db.versions| :: db.versions[i].id != x.job.id
    ensures ReadsHold(Committed(db, x), y)
  {
    hide ValidDraft, T.FareAllowed;
    if x.job.Publish? {
      var e := Committed(db, x);
      assert e.versions[..|db.versions|] == db.versions;
      if y.job.Create? && y.pc >= 3 { FoundIsListed(db.versions, y.pointer.value); }
    }
  }

  lemma FreshFor(s: System, t: TxnId)
    requires SystemInv(s) && t in s.txns
    ensures ReadsHold(s.db, s.txns[t])
    ensures s.txns[t].job.Publish? ==> forall i | 0 <= i < |s.db.versions| :: s.db.versions[i].id != s.txns[t].job.id
  {
  }

  lemma CommitKeepsInv(s: System, t: TxnId)
    requires SystemInv(s) && Allowed(s, Commit(t))
    ensures SystemInv(Act(s, Commit(t)))
  {
    hide DbOk, ReadsHold;
    var x := s.txns[t];
    FreshFor(s, t);
    CommitKeepsDb(s.db, x);
    forall u | u in s.txns && u != t ensures ReadsHold(Committed(s.db, x), s.txns[u]) {
      FreshFor(s, u);
      CommitKeepsOther(s.db, x, s.txns[u]);
    }
  }

  lemma AdvanceKeepsInv(s: System, t: TxnId)
    requires SystemInv(s) && Allowed(s, Advance(t))
    ensures SystemInv(Act(s, Advance(t)))
  {
    hide DbOk, ReadsHold, Passes;
    FreshFor(s, t);
    if Passes(s.db, s.txns[t]) { AdvanceKeepsReads(s.db, s.txns[t]); }
  }

  lemma RelistKeepsReads(db: Db, x: Txn, service: ServiceCode, listing: Listing)
    requires ReadsHold(db, x) && !(x.pc >= 1 && JobKey(x.job).service == service)
    ensures ReadsHold(db.(catalog := db.catalog[service := listing]), x)
  {
  }

  lemma ActKeepsInv(s: System, a: Action)
    requires SystemInv(s) && Allowed(s, a)
    ensures SystemInv(Act(s, a))
  {
    hide HistoryOk, ReadsHold, Passes, Executed, Committed, Conflict, HasPolicy;
    match a
    case Commit(t) => CommitKeepsInv(s, t);
    case Advance(t) => AdvanceKeepsInv(s, t);
    case Begin(t, job) => BeginKeepsInv(s, t, job);
    case Rollback(_) =>
    case Relist(service, listing) =>
      forall u | u in s.txns { RelistKeepsReads(s.db, s.txns[u], service, listing); }
  }

  lemma BeginKeepsInv(s: System, t: TxnId, job: Job)
    requires SystemInv(s) && Allowed(s, Begin(t, job))
    ensures SystemInv(Act(s, Begin(t, job)))
  {
    hide DbOk;
    var x := Txn(job, 0, 0, None, None);
    assert ReadsHold(s.db, x);
  }

  // ---- Schedules ----

  ghost predicate Schedule(s: System, actions: seq<Action>)
    decreases |actions|
  {
    actions == [] || (Allowed(s, actions[0]) && Schedule(Act(s, actions[0]), actions[1..]))
  }

  ghost function Outcome(s: System, actions: seq<Action>): System
    requires Schedule(s, actions)
    decreases |actions|
  {
    if actions == [] then s else Outcome(Act(s, actions[0]), actions[1..])
  }

  /** Under every interleaving: the invariant holds, and no version or priced request is ever altered. */
  lemma {:induction false} HistoryIsAppendOnly(s: System, actions: seq<Action>)
    requires SystemInv(s) && Schedule(s, actions)
    ensures SystemInv(Outcome(s, actions))
    ensures s.db.versions <= Outcome(s, actions).db.versions
    ensures s.db.requests <= Outcome(s, actions).db.requests
    decreases |actions|
  {
    hide SystemInv, Allowed;
    if actions != [] {
      ActKeepsInv(s, actions[0]);
      HistoryIsAppendOnly(Act(s, actions[0]), actions[1..]);
    }
  }

  /**
   * In any system reached from an empty database, every key's versions are exactly 1 to n, every pointer is
   * empty or names a version of its own key, and every priced request's snapshot is, field for field, the
   * stored version that the rider named.
   */
  lemma PublishedHistoryIsSound(catalog: map<ServiceCode, Listing>, actions: seq<Action>)
    requires Schedule(System(Db(catalog, [], map[], []), map[]), actions)
    ensures var db := Outcome(System(Db(catalog, [], map[], []), map[]), actions).db;
            && (forall key, v :: HasVersion(db.versions, key, v) <==> 1 <= v <= CountKey(db.versions, key))
            && PointersOk(db) && RequestsOk(db)
  {
    hide Schedule, HasVersion, Allowed, Act;
    var s := System(Db(catalog, [], map[], []), map[]);
    HistoryIsAppendOnly(s, actions);
    var db := Outcome(s, actions).db;
    forall key, v ensures HasVersion(db.versions, key, v) <==> 1 <= v <= CountKey(db.versions, key) {
      VersionsAreConsecutive(db.versions, key, v);
    }
  }

  /** A priced creation commits only while the version named by the rider is still the current one of an open service. */
  lemma CommittedSnapshotIsStillCurrent(s: System, t: TxnId)
    requires SystemInv(s) && Allowed(s, Commit(t)) && s.txns[t].job.Create?
    ensures var x, key, n := s.txns[t], JobKey(s.txns[t].job), |s.db.requests|;
      && |Act(s, Commit(t)).db.requests| == n + 1
      && var request := Act(s, Commit(t)).db.requests[n];
      && x.job.policyVersion == Some(request.named)
      && key in s.db.pointers && s.db.pointers[key] == Some(request.named)
      && HasPolicy(s.db.versions, request.snapshot) && request.snapshot.id == request.named
      && PolicyKey(request.snapshot) == key
      && Listed(s.db, request.service)
  {
    hide HistoryOk, MaxVersion, FindPolicy, HasPolicy, T.FareAllowed;
    FreshFor(s, t);
    SnapshotIsCurrent(s.db, s.txns[t]);
  }
}
