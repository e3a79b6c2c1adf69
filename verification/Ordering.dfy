/** ORDER BY: the rows of a query in the order their reader scans them. */
module Ordering {
  function RowsOf<T(==)>(s: seq<T>): (rows: set<T>)
    ensures rows == {} <==> s == []
  {
    var rows := set x | x in s;
    assert s != [] ==> s[0] in rows;
    rows
  }

  ghost predicate StrictOrderOn<T(!new)>(rows: set<T>, before: (T, T) -> bool) {
    && (forall a | a in rows :: !before(a, a))
    && (forall a, b | a in rows && b in rows && a != b :: before(a, b) || before(b, a))
    && (forall a, b, c | a in rows && b in rows && c in rows && before(a, b) && before(b, c) :: before(a, c))
  }

  ghost predicate Ordered<T(!new)>(s: seq<T>, before: (T, T) -> bool) {
    forall i, j | 0 <= i < j < |s| :: before(s[i], s[j])
  }

  lemma HasFirst<T(!new)>(rows: set<T>, before: (T, T) -> bool) returns (first: T)
    requires rows != {} && StrictOrderOn(rows, before)
    ensures first in rows && forall q | q in rows && q != first :: before(first, q)
    decreases |rows|
  {
    var a :| a in rows;
    var rest := rows - {a};
    assert rows == {a} + rest;
    first := a;
    if rest != {} {
      var b := HasFirst(rest, before);
      if before(b, a) { first := b; }
      forall q | q in rows && q != first ensures before(first, q) {
        assert q == a || q in rest;
        assert q == a || q == b || before(b, q);
        assert before(a, b) || before(b, a);
      }
    }
  }

  /** What has been scanned comes before what is left. */
  ghost predicate Scanned<T(!new)>(rows: set<T>, before: (T, T) -> bool, s: seq<T>, todo: set<T>) {
    && todo <= rows && RowsOf(s) == rows - todo
    && Ordered(s, before)
    && forall a, b | a in s && b in todo :: before(a, b)
  }

  lemma ScanNext<T(!new)>(rows: set<T>, before: (T, T) -> bool, s: seq<T>, todo: set<T>, next: T)
    requires StrictOrderOn(rows, before) && Scanned(rows, before, s, todo)
    requires next in todo && forall q | q in todo :: q != next ==> before(next, q)
    ensures Scanned(rows, before, s + [next], todo - {next})
  {
    var longer := s + [next];
    assert RowsOf(longer) == RowsOf(s) + {next};
    forall i, j | 0 <= i < j < |longer| ensures before(longer[i], longer[j]) {
      if j == |s| { assert longer[i] in s; }
    }
    forall a, b | a in longer && b in todo - {next} ensures before(a, b) {
      assert a in s || a == next;
    }
  }

  /** Every row once, in strictly ascending order. */
  method OrderBy<T(!new, ==)>(rows: set<T>, before: (T, T) -> bool) returns (s: seq<T>)
    requires StrictOrderOn(rows, before)
    ensures RowsOf(s) == rows && Ordered(s, before)
  {
    hide StrictOrderOn;
    s := [];
    var todo := rows;
    while todo != {}
      invariant Scanned(rows, before, s, todo)
      decreases |todo|
    {
      SubsetOrder(rows, todo, before);
      ghost var first := HasFirst(todo, before);
      var next :| next in todo && forall q | q in todo :: q != next ==> before(next, q);
      ScanNext(rows, before, s, todo, next);
      s, todo := s + [next], todo - {next};
    }
  }

  lemma SubsetOrder<T(!new)>(rows: set<T>, some: set<T>, before: (T, T) -> bool)
    requires StrictOrderOn(rows, before) && some <= rows
    ensures StrictOrderOn(some, before)
  {
  }

  /** The order leaves the reader no choice: two readers see the same sequence. */
  lemma {:induction false} OrderedIsUnique<T(!new)>(s: seq<T>, t: seq<T>, before: (T, T) -> bool)
    requires Ordered(s, before) && Ordered(t, before)
    requires StrictOrderOn(RowsOf(s), before)
    requires RowsOf(s) == RowsOf(t)
    ensures s == t
  {
    if s != [] {
      FirstsAgree(s, t, before);
      var first := s[0];
      TailRows(s, before);
      TailRows(t, before);
      OrderedIsUnique(s[1..], t[1..], before);
    }
  }

  lemma FirstsAgree<T(!new)>(s: seq<T>, t: seq<T>, before: (T, T) -> bool)
    requires Ordered(s, before) && Ordered(t, before) && s != []
    requires StrictOrderOn(RowsOf(s), before)
    requires RowsOf(s) == RowsOf(t)
    ensures t != [] && s[0] == t[0]
  {
    assert s[0] in RowsOf(s);
    assert t != [] && t[0] in RowsOf(t);
    var i :| 0 <= i < |s| && s[i] == t[0];
    var j :| 0 <= j < |t| && t[j] == s[0];
    var a, b := s[0], t[0];
    assert i > 0 ==> before(a, b);
    assert j > 0 ==> before(b, a);
  }

  lemma TailRows<T(!new)>(s: seq<T>, before: (T, T) -> bool)
    requires s != [] && Ordered(s, before) && StrictOrderOn(RowsOf(s), before)
    ensures RowsOf(s[1..]) == RowsOf(s) - {s[0]}
    ensures Ordered(s[1..], before) && StrictOrderOn(RowsOf(s[1..]), before)
  {
    forall i | 0 < i < |s| ensures s[i] != s[0] {
      assert before(s[0], s[i]) && s[0] in RowsOf(s);
    }
    assert forall x :: x in s <==> x == s[0] || x in s[1..];
  }
}
