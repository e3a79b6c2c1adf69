/** The per-user window limiter of location searches. */
module RateLimit {
  import opened Base

  const ZERO: Time := 0
  const MINUTE: int := 60 * SECOND

  type User = string
  datatype RateWindow = RateWindow(start: Time, count: int)

  class UserWindowLimiter {
    const limit: int
    const window: int
    var entries: map<User, RateWindow>

    constructor (limit: int)
      ensures this.limit == (if limit <= 0 then 60 else limit) && this.window == MINUTE
      ensures entries == map[]
    {
      this.limit := if limit <= 0 then 60 else limit;
      this.window := MINUTE;
      entries := map[];
    }

    method Allow(user: User, now: Time) returns (allowed: bool)
      modifies this
      ensures (entries, allowed) == Decide(old(entries), limit, window, Call(user, now))
    {
      var current := if user in entries then entries[user] else RateWindow(ZERO, 0);
      if current.start == ZERO || now - current.start >= window {
        entries := entries[user := RateWindow(now, 1)];
        return true;
      }
      if current.count >= limit { return false; }
      entries := entries[user := current.(count := current.count + 1)];
      return true;
    }
  }

  datatype Call = Call(user: User, at: Time)

  /** A missing entry reads as the zero window. */
  function Entry(entries: map<User, RateWindow>, user: User): RateWindow {
    if user in entries then entries[user] else RateWindow(ZERO, 0)
  }

  function Decide(entries: map<User, RateWindow>, limit: int, window: int, call: Call): (map<User, RateWindow>, bool) {
    var current := Entry(entries, call.user);
    if current.start == ZERO || call.at - current.start >= window then
      (entries[call.user := RateWindow(call.at, 1)], true)
    else if current.count >= limit then (entries, false)
    else (entries[call.user := current.(count := current.count + 1)], true)
  }

  /** The answers to a sequence of calls. */
  function Answers(entries: map<User, RateWindow>, limit: int, window: int, calls: seq<Call>): (answers: seq<bool>)
    ensures |answers| == |calls|
    decreases |calls|
  {
    if calls == [] then []
    else
      var (next, allowed) := Decide(entries, limit, window, calls[0]);
      [allowed] + Answers(next, limit, window, calls[1..])
  }

  /** Non-zero instants that never go back. */
  predicate Timed(clock: Time, calls: seq<Call>)
    decreases |calls|
  {
    calls == [] || (clock <= calls[0].at && calls[0].at != ZERO && Timed(calls[0].at, calls[1..]))
  }

  /** How many of a user's calls in [first, first + window) were admitted. */
  function Admitted(calls: seq<Call>, answers: seq<bool>, user: User, first: Time, window: int): nat
    requires |answers| == |calls|
  {
    if calls == [] then 0
    else
      (if answers[0] && calls[0].user == user && first <= calls[0].at < first + window then 1 else 0)
      + Admitted(calls[1..], answers[1..], user, first, window)
  }

  /** What an entry says about the n calls admitted so far in [first, first + window). */
  predicate Accounts(entry: RateWindow, clock: Time, limit: int, window: int, first: Time, n: int) {
    && (entry.start == ZERO ==> n == 0)
    && (entry.start != ZERO ==> entry.start <= clock && 1 <= entry.count <= limit)
    && (clock < first ==> n == 0)
    && (entry.start != ZERO ==>
          if entry.start < first then n <= entry.count - 1
          else if entry.start < first + window then n <= limit - 1 + entry.count
          else n <= 2 * limit - 1)
  }

  lemma {:induction false} AdmittedFrom(entries: map<User, RateWindow>, limit: int, window: int, calls: seq<Call>,
                                        user: User, clock: Time, first: Time, n: nat)
    requires limit >= 1 && window > 0 && Timed(clock, calls)
    requires Accounts(Entry(entries, user), clock, limit, window, first, n)
    ensures n + Admitted(calls, Answers(entries, limit, window, calls), user, first, window) <= 2 * limit - 1
    decreases |calls|
  {
    if calls != [] {
      var (next, allowed) := Decide(entries, limit, window, calls[0]);
      var m := if allowed && calls[0].user == user && first <= calls[0].at < first + window then n + 1 else n;
      var answers := Answers(entries, limit, window, calls);
      assert answers[1..] == Answers(next, limit, window, calls[1..]);
      AdmittedFrom(next, limit, window, calls[1..], user, calls[0].at, first, m);
    }
  }

  /**
   * However calls are timed, every half-open interval one window long admits at most 2 * limit - 1 calls of
   * a user, so never more than twice the limit.
   */
  lemma AtMostTwiceTheLimit(limit: int, window: int, calls: seq<Call>, user: User, clock: Time, first: Time)
    requires limit >= 1 && window > 0 && Timed(clock, calls)
    ensures Admitted(calls, Answers(map[], limit, window, calls), user, first, window) <= 2 * limit - 1
  {
    AdmittedFrom(map[], limit, window, calls, user, clock, first, 0);
  }

  // ---- A denial is never premature ----

  /** The entry counts no more than the calls admitted since `first`, if its window began after that. */
  predicate Counted(entry: RateWindow, clock: Time, first: Time, n: int) {
    entry.start != ZERO ==> entry.start <= clock && (entry.start >= first ==> entry.count <= n)
  }

  lemma {:induction false} DeniedFrom(entries: map<User, RateWindow>, limit: int, window: int, calls: seq<Call>,
                                      user: User, clock: Time, last: Time, n: nat)
    requires limit >= 1 && window > 0 && Timed(clock, calls) && clock <= last
    requires calls != [] && calls[|calls| - 1] == Call(user, last)
    requires !Answers(entries, limit, window, calls)[|calls| - 1]
    requires Counted(Entry(entries, user), clock, last - window + 1, n)
    ensures n + Admitted(calls, Answers(entries, limit, window, calls), user, last - window + 1, window) >= limit
    decreases |calls|
  {
    var (next, allowed) := Decide(entries, limit, window, calls[0]);
    var answers := Answers(entries, limit, window, calls);
    assert answers[1..] == Answers(next, limit, window, calls[1..]);
    if |calls| > 1 {
      NoCallAfterLast(calls[0].at, calls[1..]);
      var m := if allowed && calls[0].user == user && calls[0].at >= last - window + 1 then n + 1 else n;
      DeniedFrom(next, limit, window, calls[1..], user, calls[0].at, last, m);
    }
  }

  lemma {:induction false} NoCallAfterLast(clock: Time, calls: seq<Call>)
    requires calls != [] && Timed(clock, calls)
    ensures clock <= calls[|calls| - 1].at
    decreases |calls|
  {
    if |calls| > 1 { NoCallAfterLast(calls[0].at, calls[1..]); }
  }

  /** Whoever is denied has had `limit` calls admitted within the window length that ends with the denied call. */
  lemma DenialsAreEarned(limit: int, window: int, calls: seq<Call>, user: User, clock: Time)
    requires limit >= 1 && window > 0 && Timed(clock, calls)
    requires calls != [] && calls[|calls| - 1].user == user && !Answers(map[], limit, window, calls)[|calls| - 1]
    ensures var last := calls[|calls| - 1].at;
      Admitted(calls, Answers(map[], limit, window, calls), user, last - window + 1, window) >= limit
  {
    NoCallAfterLast(clock, calls);
    DeniedFrom(map[], limit, window, calls, user, clock, calls[|calls| - 1].at, 0);
  }

  function Burst(call: Call, n: nat): seq<Call> {
    if n == 0 then [] else [call] + Burst(call, n - 1)
  }

  lemma {:induction false} BurstTimed(clock: Time, call: Call, n: nat, rest: seq<Call>)
    requires clock <= call.at && call.at != ZERO && Timed(call.at, rest)
    requires n == 0 ==> Timed(clock, rest)
    ensures Timed(clock, Burst(call, n) + rest)
    decreases n
  {
    if n == 0 {
      assert Burst(call, 0) + rest == rest;
    } else {
      BurstTimed(call.at, call, n - 1, rest);
      assert (Burst(call, n) + rest)[1..] == Burst(call, n - 1) + rest;
    }
  }

  /** Calls admitted from a given state on. */
  function AdmittedAfter(entries: map<User, RateWindow>, limit: int, window: int, calls: seq<Call>, user: User,
                         first: Time): nat
  {
    Admitted(calls, Answers(entries, limit, window, calls), user, first, window)
  }

  lemma AdmittedNext(entries: map<User, RateWindow>, limit: int, window: int, call: Call, rest: seq<Call>, user: User,
                     first: Time)
    ensures var (next, allowed) := Decide(entries, limit, window, call);
            AdmittedAfter(entries, limit, window, [call] + rest, user, first)
            == (if allowed && call.user == user && first <= call.at < first + window then 1 else 0)
               + AdmittedAfter(next, limit, window, rest, user, first)
  {
    var (next, allowed) := Decide(entries, limit, window, call);
    assert ([call] + rest)[1..] == rest;
    assert Answers(entries, limit, window, [call] + rest)[1..] == Answers(next, limit, window, rest);
  }

  /** A burst inside a window that has room for it is admitted whole. */
  lemma {:induction false} BurstAdmitted(start: Time, count: int, limit: int, window: int, call: Call, n: nat,
                                         rest: seq<Call>, first: Time)
    requires start != ZERO && call.at - start < window && count + n <= limit && first <= call.at < first + window
    ensures AdmittedAfter(map[call.user := RateWindow(start, count)], limit, window, Burst(call, n) + rest, call.user, first)
         == n + AdmittedAfter(map[call.user := RateWindow(start, count + n)], limit, window, rest, call.user, first)
    decreases n
  {
    hide AdmittedAfter;
    if n == 0 {
      assert Burst(call, 0) + rest == rest;
    } else {
      var entries := map[call.user := RateWindow(start, count)];
      AdmittedNext(entries, limit, window, call, Burst(call, n - 1) + rest, call.user, first);
      assert entries[call.user := RateWindow(start, count + 1)] == map[call.user := RateWindow(start, count + 1)];
      BurstAdmitted(start, count + 1, limit, window, call, n - 1, rest, first);
      assert Burst(call, n) + rest == [call] + (Burst(call, n - 1) + rest);
    }
  }

  /** An opening call, the rest of its window spent at the window's last instant, and a full burst at its boundary. */
  function BoundaryCalls(user: User, limit: nat, window: int, start: Time): seq<Call>
    requires limit >= 1
  {
    [Call(user, start)] + (Burst(Call(user, start + window - 1), limit - 1) + AtBoundary(user, limit, window, start))
  }

  function AtBoundary(user: User, limit: nat, window: int, start: Time): seq<Call>
    requires limit >= 1
  {
    [Call(user, start + window)] + (Burst(Call(user, start + window), limit - 1) + [])
  }

  /** The bound is met for every limit and every window, by one user, in the interval right after the opening call. */
  lemma TheBoundIsMet(user: User, limit: nat, window: int, start: Time)
    requires limit >= 1 && window >= 2 && start > ZERO
    ensures Timed(start, BoundaryCalls(user, limit, window, start))
    ensures AdmittedAfter(map[], limit, window, BoundaryCalls(user, limit, window, start), user, start + 1)
         == 2 * limit - 1
  {
    hide AdmittedAfter, Timed;
    var late, next := Call(user, start + window - 1), Call(user, start + window);
    BoundaryCallsTimed(user, limit, window, start);
    var full, reopened := map[user := RateWindow(start, limit)], map[user := RateWindow(start + window, 1)];
    AdmittedNext(map[], limit, window, Call(user, start), Burst(late, limit - 1) + AtBoundary(user, limit, window, start),
                 user, start + 1);
    BurstAdmitted(start, 1, limit, window, late, limit - 1, AtBoundary(user, limit, window, start), start + 1);
    AdmittedNext(full, limit, window, next, Burst(next, limit - 1) + [], user, start + 1);
    assert full[user := RateWindow(start + window, 1)] == reopened;
    BurstAdmitted(start + window, 1, limit, window, next, limit - 1, [], start + 1);
    NothingAdmitted(map[user := RateWindow(start + window, limit)], limit, window, user, start + 1);
  }

  lemma NothingAdmitted(entries: map<User, RateWindow>, limit: int, window: int, user: User, first: Time)
    ensures AdmittedAfter(entries, limit, window, [], user, first) == 0
  {
  }

  lemma BoundaryCallsTimed(user: User, limit: nat, window: int, start: Time)
    requires limit >= 1 && window >= 2 && start > ZERO
    ensures Timed(start, BoundaryCalls(user, limit, window, start))
  {
    var late, next := Call(user, start + window - 1), Call(user, start + window);
    var boundary := AtBoundary(user, limit, window, start);
    BurstTimed(next.at, next, limit - 1, []);
    assert boundary[1..] == Burst(next, limit - 1) + [];
    BurstTimed(start, late, limit - 1, boundary);
    assert BoundaryCalls(user, limit, window, start)[1..] == Burst(late, limit - 1) + boundary;
  }

  // ---- Users do not affect each other ----

  function CallsOf(calls: seq<Call>, user: User): seq<Call> {
    if calls == [] then []
    else if calls[0].user == user then [calls[0]] + CallsOf(calls[1..], user)
    else CallsOf(calls[1..], user)
  }

  function AnswersOf(calls: seq<Call>, answers: seq<bool>, user: User): seq<bool>
    requires |answers| == |calls|
  {
    if calls == [] then []
    else if calls[0].user == user then [answers[0]] + AnswersOf(calls[1..], answers[1..], user)
    else AnswersOf(calls[1..], answers[1..], user)
  }

  /** A user gets the answers that the same calls would get with nobody else around. */
  lemma {:induction false} UsersAreIndependent(entries: map<User, RateWindow>, alone: map<User, RateWindow>,
                                               limit: int, window: int, calls: seq<Call>, user: User)
    requires Entry(alone, user) == Entry(entries, user)
    ensures AnswersOf(calls, Answers(entries, limit, window, calls), user)
         == Answers(alone, limit, window, CallsOf(calls, user))
    decreases |calls|
  {
    if calls != [] {
      var (next, allowed) := Decide(entries, limit, window, calls[0]);
      var answers := Answers(entries, limit, window, calls);
      assert answers[1..] == Answers(next, limit, window, calls[1..]);
      if calls[0].user == user {
        var (nextAlone, allowedAlone) := Decide(alone, limit, window, calls[0]);
        UsersAreIndependent(next, nextAlone, limit, window, calls[1..], user);
        assert CallsOf(calls, user)[1..] == CallsOf(calls[1..], user);
      } else {
        UsersAreIndependent(next, alone, limit, window, calls[1..], user);
      }
    }
  }
}
