/** The stable newest-first sort the listing operations use. */
module Sorting {
  import opened Base

  /** Inserts `x` after every element that is at least as new. */
  function InsertNewest<T>(x: T, s: seq<T>, at: T -> Timestamp): seq<T> {
    if s == [] then [x]
    else if at(s[|s| - 1]) >= at(x) then s + [x]
    else InsertNewest(x, s[..|s| - 1], at) + [s[|s| - 1]]
  }

  function NewestFirst<T>(s: seq<T>, at: T -> Timestamp): seq<T> {
    if s == [] then [] else InsertNewest(s[|s| - 1], NewestFirst(s[..|s| - 1], at), at)
  }

  predicate NewestOrdered<T>(s: seq<T>, at: T -> Timestamp) {
    forall i, j :: 0 <= i < j < |s| ==> at(s[i]) >= at(s[j])
  }

  function Truncate<T>(s: seq<T>, limit: Option<nat>): seq<T> {
    if limit.Some? && limit.value < |s| then s[..limit.value] else s
  }

  /** A listing cut to its limit: the newest rows in order, as many as there are or as the limit allows. */
  ghost predicate NewestOf<T>(rows: seq<T>, all: seq<T>, limit: Option<nat>) {
    rows <= all && |rows| == if limit.Some? && limit.value < |all| then limit.value else |all|
  }

  /** What the cut leaves out is no newer than anything it keeps. */
  lemma NewestOfTells<T>(rows: seq<T>, all: seq<T>, limit: Option<nat>, at: T -> Timestamp)
    requires NewestOf(rows, all, limit) && NewestOrdered(all, at)
    ensures NewestOrdered(rows, at) && (limit.None? ==> rows == all)
    ensures forall x :: x in rows ==> x in all
    ensures forall x, y :: x in rows && y in all && y !in rows ==> at(x) >= at(y)
  {
    assert forall k :: 0 <= k < |rows| ==> all[k] == rows[k] && all[k] in rows;
    forall x, y | x in rows && y in all && y !in rows ensures at(x) >= at(y) {
      var i :| 0 <= i < |rows| && rows[i] == x;
      var j :| 0 <= j < |all| && all[j] == y;
      assert all[i] == x && i < j;
    }
  }

  function SameInstant<T>(t: Timestamp, at: T -> Timestamp): T -> bool {
    x => at(x) == t
  }

  lemma {:induction false} InsertAdds<T>(x: T, s: seq<T>, at: T -> Timestamp)
    ensures multiset(InsertNewest(x, s, at)) == multiset(s) + multiset{x}
  {
    if s != [] && at(s[|s| - 1]) < at(x) {
      InsertAdds(x, s[..|s| - 1], at);
      assert s == s[..|s| - 1] + [s[|s| - 1]];
    }
  }

  lemma {:induction false} InsertOrders<T>(x: T, s: seq<T>, at: T -> Timestamp, floor: Timestamp)
    requires NewestOrdered(s, at) && floor <= at(x) && forall i :: 0 <= i < |s| ==> floor <= at(s[i])
    ensures var r := InsertNewest(x, s, at);
      NewestOrdered(r, at) && forall i :: 0 <= i < |r| ==> floor <= at(r[i])
  {
    if s != [] && at(s[|s| - 1]) < at(x) {
      InsertOrders(x, s[..|s| - 1], at, at(s[|s| - 1]));
    }
  }

  lemma InsertKeeps<T>(x: T, s: seq<T>, at: T -> Timestamp)
    requires NewestOrdered(s, at)
    ensures NewestOrdered(InsertNewest(x, s, at), at)
    ensures multiset(InsertNewest(x, s, at)) == multiset(s) + multiset{x}
  {
    InsertAdds(x, s, at);
    InsertOrders(x, s, at, if s == [] || at(x) < at(s[|s| - 1]) then at(x) else at(s[|s| - 1]));
  }

  lemma {:induction false} InsertIsStable<T>(x: T, s: seq<T>, at: T -> Timestamp, t: Timestamp)
    requires NewestOrdered(s, at)
    ensures Filter(InsertNewest(x, s, at), SameInstant(t, at)) == Filter(s + [x], SameInstant(t, at))
  {
    var p := SameInstant(t, at);
    FilterAppend(s, p, x);
    if s != [] && at(s[|s| - 1]) < at(x) {
      var init, z := s[..|s| - 1], s[|s| - 1];
      assert s == init + [z];
      InsertIsStable(x, init, at, t);
      FilterAppend(init, p, x);
      FilterAppend(init, p, z);
      FilterAppend(InsertNewest(x, init, at), p, z);
      assert InsertNewest(x, s, at) == InsertNewest(x, init, at) + [z];
      assert !(p(x) && p(z));
    }
  }

  /** Ordered, a permutation, and stable. */
  lemma {:induction false} NewestFirstSorts<T>(s: seq<T>, at: T -> Timestamp)
    ensures NewestOrdered(NewestFirst(s, at), at)
    ensures multiset(NewestFirst(s, at)) == multiset(s)
    ensures forall t :: Filter(NewestFirst(s, at), SameInstant(t, at)) == Filter(s, SameInstant(t, at))
  {
    if s != [] {
      var init, z := s[..|s| - 1], s[|s| - 1];
      assert s == init + [z];
      NewestFirstSorts(init, at);
      InsertKeeps(z, NewestFirst(init, at), at);
      forall t ensures Filter(NewestFirst(s, at), SameInstant(t, at)) == Filter(s, SameInstant(t, at)) {
        InsertIsStable(z, NewestFirst(init, at), at, t);
        FilterAppend(NewestFirst(init, at), SameInstant(t, at), z);
        FilterAppend(init, SameInstant(t, at), z);
      }
    }
  }

  lemma {:induction false} OldestInFilter<T>(s: seq<T>, at: T -> Timestamp, t: Timestamp)
    requires s != [] && NewestOrdered(s, at) && Filter(s, SameInstant(t, at)) != []
    ensures at(s[|s| - 1]) <= t
  {
    FilterMember(s, SameInstant(t, at), Filter(s, SameInstant(t, at))[0]);
  }

  /**
   Order and stability determine the result: no other ordered sequence lists every instant's
   elements in that order.
   */
  lemma {:induction false} NewestFirstUnique<T>(r: seq<T>, s: seq<T>, at: T -> Timestamp)
    requires NewestOrdered(r, at) && NewestOrdered(s, at)
    requires forall t :: Filter(r, SameInstant(t, at)) == Filter(s, SameInstant(t, at))
    ensures r == s
  {
    if r != [] || s != [] {
      if r != [] {
        var t := at(r[|r| - 1]);
        assert Filter(r, SameInstant(t, at)) == Filter(s, SameInstant(t, at));
        OldestInFilter(s, at, t);
      }
      if s != [] {
        var t := at(s[|s| - 1]);
        assert Filter(r, SameInstant(t, at)) == Filter(s, SameInstant(t, at));
        OldestInFilter(r, at, t);
      }
      var r', s' := r[..|r| - 1], s[..|s| - 1];
      forall t ensures Filter(r', SameInstant(t, at)) == Filter(s', SameInstant(t, at)) {
        assert Filter(r, SameInstant(t, at)) == Filter(s, SameInstant(t, at));
        LastInFilter(r, s, SameInstant(t, at));
      }
      var t := at(r[|r| - 1]);
      assert Filter(r, SameInstant(t, at)) == Filter(s, SameInstant(t, at));
      LastInFilter(r, s, SameInstant(t, at));
      NewestFirstUnique(r', s', at);
    }
  }

  lemma LastInFilter<T>(r: seq<T>, s: seq<T>, p: T -> bool)
    requires r != [] && s != [] && Filter(r, p) == Filter(s, p)
    requires p(r[|r| - 1]) <==> p(s[|s| - 1])
    ensures Filter(r[..|r| - 1], p) == Filter(s[..|s| - 1], p)
    ensures p(r[|r| - 1]) ==> r[|r| - 1] == s[|s| - 1]
  {
    if p(r[|r| - 1]) {
      var a, b := Filter(r[..|r| - 1], p), Filter(s[..|s| - 1], p);
      assert a == (a + [r[|r| - 1]])[..|a|];
      assert b == (b + [s[|s| - 1]])[..|b|];
    }
  }

  lemma {:induction false} DistinctByCount<T>(s: seq<T>)
    ensures Distinct(s) <==> forall x :: x in s ==> multiset(s)[x] == 1
  {
    if s != [] {
      var init, z := s[..|s| - 1], s[|s| - 1];
      assert s == init + [z];
      DistinctByCount(init);
      if Distinct(s) {
        assert z !in init;
        forall x | x in s ensures multiset(s)[x] == 1 {
        }
      } else if Distinct(init) {
        assert z in init;
        assert multiset(s)[z] == multiset(init)[z] + 1;
      } else {
        var x :| x in init && multiset(init)[x] != 1;
        assert x in multiset(init);
        assert multiset(s)[x] > 1;
      }
    }
  }

  /** A permutation has the same members and, if there were no repeats, still has none. */
  lemma PermutationKeepsSet<T>(s: seq<T>, t: seq<T>)
    requires multiset(s) == multiset(t) && Distinct(s)
    ensures Distinct(t)
    ensures forall x :: x in s <==> x in t
  {
    assert forall x :: x in s <==> x in multiset(s);
    assert forall x :: x in t <==> x in multiset(t);
    DistinctByCount(s);
    DistinctByCount(t);
  }
}
