/**
 Stable sorting by a rank, as `list.sort(key=...)` does it, and what the head of the
 sorted list is. Rules, rate-limit policies and audit rows are all ordered this way.
 */
module Ranking {

  /** A sort key: a tuple compared lexicographically. */
  datatype Rank = Rank(first: int, second: int, third: int)

  predicate Leq(a: Rank, b: Rank) {
    || a.first < b.first
    || (a.first == b.first && (a.second < b.second || (a.second == b.second && a.third <= b.third)))
  }

  function Insert<T>(rank: T -> Rank, x: T, s: seq<T>): seq<T> {
    if s == [] || Leq(rank(x), rank(s[0])) then [x] + s else [s[0]] + Insert(rank, x, s[1..])
  }

  function StableSort<T>(rank: T -> Rank, s: seq<T>): seq<T> {
    if s == [] then [] else Insert(rank, s[0], StableSort(rank, s[1..]))
  }

  ghost predicate Sorted<T>(rank: T -> Rank, s: seq<T>) {
    forall i, j :: 0 <= i < j < |s| ==> Leq(rank(s[i]), rank(s[j]))
  }

  function Filter<T>(keep: T -> bool, s: seq<T>): seq<T> {
    if s == [] then [] else (if keep(s[0]) then [s[0]] else []) + Filter(keep, s[1..])
  }

  function HasRank<T>(rank: T -> Rank, k: Rank): T -> bool {
    x => rank(x) == k
  }

  function WithRank<T>(rank: T -> Rank, k: Rank, s: seq<T>): seq<T> {
    Filter(HasRank(rank, k), s)
  }

  lemma {:induction false} InsertAdds<T>(rank: T -> Rank, x: T, s: seq<T>)
    ensures multiset(Insert(rank, x, s)) == multiset(s) + multiset{x}
  {
    if s == [] || Leq(rank(x), rank(s[0])) {
    } else {
      InsertAdds(rank, x, s[1..]);
      assert s == [s[0]] + s[1..];
    }
  }

  lemma {:induction false} InsertSorted<T>(rank: T -> Rank, x: T, s: seq<T>)
    requires Sorted(rank, s)
    ensures Sorted(rank, Insert(rank, x, s))
  {
    if s == [] || Leq(rank(x), rank(s[0])) {
    } else {
      InsertSorted(rank, x, s[1..]);
      var rest := Insert(rank, x, s[1..]);
      forall j | 0 <= j < |rest|
        ensures Leq(rank(s[0]), rank(rest[j]))
      {
        InsertAdds(rank, x, s[1..]);
        assert rest[j] in multiset(rest);
        assert rest[j] == x || rest[j] in s[1..];
      }
    }
  }

  /** The sorted list is ordered and holds the same elements. */
  lemma {:induction false} SortSorts<T>(rank: T -> Rank, s: seq<T>)
    ensures Sorted(rank, StableSort(rank, s))
    ensures multiset(StableSort(rank, s)) == multiset(s)
    ensures |StableSort(rank, s)| == |s|
  {
    if s != [] {
      SortSorts(rank, s[1..]);
      InsertSorted(rank, s[0], StableSort(rank, s[1..]));
      InsertAdds(rank, s[0], StableSort(rank, s[1..]));
      assert s == [s[0]] + s[1..];
    }
    assert |multiset(StableSort(rank, s))| == |multiset(s)|;
  }

  lemma SortKeepsMembers<T>(rank: T -> Rank, s: seq<T>, x: T)
    ensures x in StableSort(rank, s) <==> x in s
  {
    SortSorts(rank, s);
    assert x in multiset(StableSort(rank, s)) <==> x in multiset(s);
  }

  /** Elements of one rank keep their order. */
  lemma {:induction false} SortIsStable<T>(rank: T -> Rank, k: Rank, s: seq<T>)
    ensures WithRank(rank, k, StableSort(rank, s)) == WithRank(rank, k, s)
  {
    if s != [] {
      SortIsStable(rank, k, s[1..]);
      InsertIsStable(rank, k, s[0], StableSort(rank, s[1..]));
    }
  }

  lemma {:induction false} InsertIsStable<T>(rank: T -> Rank, k: Rank, x: T, s: seq<T>)
    ensures WithRank(rank, k, Insert(rank, x, s)) == (if rank(x) == k then [x] else []) + WithRank(rank, k, s)
  {
    var t := Insert(rank, x, s);
    if s == [] || Leq(rank(x), rank(s[0])) {
      assert t[0] == x && t[1..] == s;
    } else {
      InsertIsStable(rank, k, x, s[1..]);
      assert t[0] == s[0] && t[1..] == Insert(rank, x, s[1..]);
    }
  }

  /** Sorting an ordered list changes nothing. */
  lemma {:induction false} SortOfSorted<T>(rank: T -> Rank, s: seq<T>)
    requires Sorted(rank, s)
    ensures StableSort(rank, s) == s
  {
    if s != [] {
      SortOfSorted(rank, s[1..]);
    }
  }

  // ----- filtering -------------------------------------------------------------

  lemma {:induction false} FilterMember<T>(keep: T -> bool, s: seq<T>, x: T)
    ensures x in Filter(keep, s) <==> x in s && keep(x)
  {
    if s != [] {
      FilterMember(keep, s[1..], x);
    }
  }

  lemma {:induction false} FilterAppend<T>(keep: T -> bool, s: seq<T>, t: seq<T>)
    ensures Filter(keep, s + t) == Filter(keep, s) + Filter(keep, t)
  {
    if s == [] {
      assert s + t == t;
    } else {
      var head := if keep(s[0]) then [s[0]] else [];
      calc {
        Filter(keep, s + t);
        { assert (s + t)[1..] == s[1..] + t; }
        head + Filter(keep, s[1..] + t);
        { FilterAppend(keep, s[1..], t); }
        head + (Filter(keep, s[1..]) + Filter(keep, t));
        (head + Filter(keep, s[1..])) + Filter(keep, t);
      }
    }
  }

  /** The order in which two filters are applied does not matter. */
  lemma {:induction false} FiltersCommute<T>(p: T -> bool, q: T -> bool, s: seq<T>)
    ensures Filter(p, Filter(q, s)) == Filter(q, Filter(p, s))
  {
    if s != [] {
      FiltersCommute(p, q, s[1..]);
      FilterAppend(p, if q(s[0]) then [s[0]] else [], Filter(q, s[1..]));
      FilterAppend(q, if p(s[0]) then [s[0]] else [], Filter(p, s[1..]));
    }
  }

  lemma {:induction false} FilterAgrees<T>(p: T -> bool, q: T -> bool, s: seq<T>)
    requires forall x :: x in s ==> p(x) == q(x)
    ensures Filter(p, s) == Filter(q, s)
  {
    if s != [] {
      FilterAgrees(p, q, s[1..]);
    }
  }

  lemma {:induction false} FilterTwice<T>(p: T -> bool, q: T -> bool, both: T -> bool, s: seq<T>)
    requires forall x :: x in s ==> both(x) == (q(x) && p(x))
    ensures Filter(p, Filter(q, s)) == Filter(both, s)
  {
    if s != [] {
      FilterTwice(p, q, both, s[1..]);
      FilterAppend(p, if q(s[0]) then [s[0]] else [], Filter(q, s[1..]));
    }
  }

  /** The head of a filtered list is the first element that passes. */
  lemma {:induction false} FilterHead<T>(keep: T -> bool, s: seq<T>) returns (i: nat)
    requires Filter(keep, s) != []
    ensures i < |s| && keep(s[i]) && Filter(keep, s)[0] == s[i]
    ensures forall j :: 0 <= j < i ==> !keep(s[j])
  {
    if keep(s[0]) {
      i := 0;
    } else {
      var k := FilterHead(keep, s[1..]);
      i := k + 1;
    }
  }

  // ----- the head of a sorted list ------------------------------------------------

  /** s[i] has the least rank, and no earlier element shares it. */
  ghost predicate IsFirstBest<T>(rank: T -> Rank, s: seq<T>, i: int) {
    && 0 <= i < |s|
    && (forall j :: 0 <= j < |s| ==> Leq(rank(s[i]), rank(s[j])))
    && (forall j :: 0 <= j < i ==> rank(s[j]) != rank(s[i]))
  }

  /** Sorting and taking the head picks the first element of least rank. */
  lemma {:induction false} SortHead<T>(rank: T -> Rank, s: seq<T>, i: int)
    requires IsFirstBest(rank, s, i)
    ensures StableSort(rank, s) != [] && StableSort(rank, s)[0] == s[i]
  {
    var rest := StableSort(rank, s[1..]);
    if i > 0 {
      SortHead(rank, s[1..], i - 1);
    } else if rest != [] {
      SortKeepsMembers(rank, s[1..], rest[0]);
      var j :| 0 <= j < |s[1..]| && s[1..][j] == rest[0];
      assert Leq(rank(s[0]), rank(s[j + 1]));
    }
  }

  /** Nothing ranks above the last element of the sorted list. */
  lemma {:induction false} SortLast<T>(rank: T -> Rank, s: seq<T>, x: T) returns (last: T)
    requires x in s
    ensures StableSort(rank, s) != [] && last == StableSort(rank, s)[|StableSort(rank, s)| - 1]
    ensures last in s && Leq(rank(x), rank(last))
  {
    var sorted := StableSort(rank, s);
    SortKeepsMembers(rank, s, x);
    var i :| 0 <= i < |sorted| && sorted[i] == x;
    last := sorted[|sorted| - 1];
    SortKeepsMembers(rank, s, last);
    assert Sorted(rank, sorted) by {
      SortSorts(rank, s);
    }
    assert i < |sorted| - 1 ==> Leq(rank(sorted[i]), rank(last));
  }

  lemma {:induction false} FirstBestExists<T>(rank: T -> Rank, s: seq<T>) returns (i: int)
    requires s != []
    ensures IsFirstBest(rank, s, i)
  {
    if |s| == 1 {
      i := 0;
    } else {
      var k := FirstBestExists(rank, s[1..]);
      assert forall j :: 1 <= j < |s| ==> s[j] == s[1..][j - 1];
      i := if Leq(rank(s[0]), rank(s[k + 1])) then 0 else k + 1;
    }
  }
}
