/**
 * The three SQL clauses the offline cache relies on, as functions over
 * sequences of rows: WHERE (Filter), ORDER BY (SortBy, on a lexicographic
 * key) and LIMIT (Limit).
 */
module Ordering {

  /** A lexicographic sort key; ORDER BY a DESC, b ASC becomes Key(-a, b, ...). */
  datatype Key = Key(primary: int, secondary: int, tertiary: int)

  predicate KeyLe(a: Key, b: Key)
  {
    a.primary < b.primary ||
    (a.primary == b.primary &&
      (a.secondary < b.secondary || (a.secondary == b.secondary && a.tertiary <= b.tertiary)))
  }

  predicate SortedBy<T>(s: seq<T>, key: T -> Key)
  {
    forall i, j :: 0 <= i < j < |s| ==> KeyLe(key(s[i]), key(s[j]))
  }

  /** WHERE: the rows satisfying `keep`, in their stored order. */
  function Filter<T>(s: seq<T>, keep: T -> bool): (r: seq<T>)
    ensures |r| <= |s|
    decreases |s|
  {
    if s == [] then []
    else if keep(s[0]) then [s[0]] + Filter(s[1..], keep)
    else Filter(s[1..], keep)
  }

  /** UPDATE ... SET ... WHERE: every row `hit` selects is replaced by `update` of it, in place. */
  function UpdateWhere<T>(rows: seq<T>, hit: T -> bool, update: T -> T): (r: seq<T>)
    ensures |r| == |rows|
    ensures forall i :: 0 <= i < |rows| ==> r[i] == if hit(rows[i]) then update(rows[i]) else rows[i]
  {
    seq(|rows|, i requires 0 <= i < |rows| => if hit(rows[i]) then update(rows[i]) else rows[i])
  }

  /** Filtering a table with one more row at the end adds that row when it passes. */
  lemma {:induction false} FilterSnoc<T>(s: seq<T>, x: T, keep: T -> bool)
    ensures Filter(s + [x], keep) == Filter(s, keep) + (if keep(x) then [x] else [])
    decreases |s|
  {
    if s == [] {
      assert s + [x] == [x];
      assert [x][1..] == [];
    } else {
      assert (s + [x])[0] == s[0] && (s + [x])[1..] == s[1..] + [x];
      FilterSnoc(s[1..], x, keep);
    }
  }

  /** A row survives the filter exactly when it is stored and satisfies `keep`. */
  lemma {:induction false} FilterMembers<T>(s: seq<T>, keep: T -> bool)
    ensures forall x :: x in Filter(s, keep) ==> x in s && keep(x)
    ensures forall x :: x in s && keep(x) ==> x in Filter(s, keep)
    decreases |s|
  {
    if s != [] {
      FilterMembers(s[1..], keep);
      assert s == [s[0]] + s[1..];
    }
  }

  /** WHERE repeats no row: a kept row occurs as often as it is stored, a dropped row not at all. */
  lemma {:induction false} FilterMultiset<T>(s: seq<T>, keep: T -> bool)
    ensures multiset(Filter(s, keep)) <= multiset(s)
    ensures forall x :: keep(x) ==> multiset(Filter(s, keep))[x] == multiset(s)[x]
    decreases |s|
  {
    if s != [] {
      FilterMultiset(s[1..], keep);
      assert s == [s[0]] + s[1..];
    }
  }

  /** The rows kept and the rows dropped together make up the table. */
  lemma {:induction false} FilterSplit<T>(s: seq<T>, keep: T -> bool, drop: T -> bool)
    requires forall x :: drop(x) <==> !keep(x)
    ensures |Filter(s, keep)| + |Filter(s, drop)| == |s|
    decreases |s|
  {
    if s != [] {
      FilterSplit(s[1..], keep, drop);
    }
  }

  /** `a` is `b` with some elements left out, the rest in their order. */
  predicate IsSubsequence<T(==)>(a: seq<T>, b: seq<T>)
    decreases |b|
  {
    a == [] ||
    (b != [] && ((a[0] == b[0] && IsSubsequence(a[1..], b[1..])) || IsSubsequence(a, b[1..])))
  }

  /** WHERE never reorders rows. */
  lemma {:induction false} FilterIsSubsequence<T>(s: seq<T>, keep: T -> bool)
    ensures IsSubsequence(Filter(s, keep), s)
    decreases |s|
  {
    if s != [] {
      FilterIsSubsequence(s[1..], keep);
      if keep(s[0]) {
        assert ([s[0]] + Filter(s[1..], keep))[1..] == Filter(s[1..], keep);
      }
    }
  }

  /** Inserts `x` before the first element whose key is not below its own. */
  function Insert<T>(x: T, s: seq<T>, key: T -> Key): seq<T>
    decreases |s|
  {
    if s == [] then [x]
    else if KeyLe(key(x), key(s[0])) then [x] + s
    else [s[0]] + Insert(x, s[1..], key)
  }

  lemma {:induction false} InsertPermutes<T>(x: T, s: seq<T>, key: T -> Key)
    ensures multiset(Insert(x, s, key)) == multiset(s) + multiset{x}
    decreases |s|
  {
    if s != [] && !KeyLe(key(x), key(s[0])) {
      InsertPermutes(x, s[1..], key);
      assert s == [s[0]] + s[1..];
    }
  }

  /** Insert adds `x` and nothing else. */
  lemma {:induction false} InsertMembers<T>(x: T, s: seq<T>, key: T -> Key)
    ensures forall y :: y in Insert(x, s, key) ==> y == x || y in s
    decreases |s|
  {
    if s != [] && !KeyLe(key(x), key(s[0])) {
      InsertMembers(x, s[1..], key);
    }
  }

  /** In a sorted sequence the first key is at most every later key. */
  lemma HeadLeTail<T>(s: seq<T>, key: T -> Key)
    requires SortedBy(s, key) && s != []
    ensures forall y :: y in s[1..] ==> KeyLe(key(s[0]), key(y))
  {
    forall y | y in s[1..] ensures KeyLe(key(s[0]), key(y)) {
      var k :| 0 <= k < |s[1..]| && s[1..][k] == y;
      assert s[k + 1] == y;
    }
  }

  /** A row whose key is at most every key of a sorted sequence can go in front of it. */
  lemma ConsSorted<T>(h: T, rest: seq<T>, key: T -> Key)
    requires SortedBy(rest, key)
    requires forall y :: y in rest ==> KeyLe(key(h), key(y))
    ensures SortedBy([h] + rest, key)
  {
    var r := [h] + rest;
    forall i, j | 0 <= i < j < |r| ensures KeyLe(key(r[i]), key(r[j])) {
      assert r[j] == rest[j - 1];
      if i > 0 {
        assert r[i] == rest[i - 1];
      }
    }
  }

  lemma {:induction false} InsertSorted<T>(x: T, s: seq<T>, key: T -> Key)
    requires SortedBy(s, key)
    ensures SortedBy(Insert(x, s, key), key)
    decreases |s|
  {
    if s != [] && !KeyLe(key(x), key(s[0])) {
      assert SortedBy(s[1..], key);
      InsertSorted(x, s[1..], key);
      InsertMembers(x, s[1..], key);
      HeadLeTail(s, key);
      ConsSorted(s[0], Insert(x, s[1..], key), key);
    }
  }

  lemma InsertKeeps<T>(x: T, s: seq<T>, key: T -> Key)
    requires SortedBy(s, key)
    ensures SortedBy(Insert(x, s, key), key)
    ensures multiset(Insert(x, s, key)) == multiset(s) + multiset{x}
  {
    InsertSorted(x, s, key);
    InsertPermutes(x, s, key);
  }

  /** ORDER BY: insertion sort on the key (stable, so rows with equal keys keep their stored order). */
  function SortBy<T>(s: seq<T>, key: T -> Key): seq<T>
    decreases |s|
  {
    if s == [] then [] else Insert(s[0], SortBy(s[1..], key), key)
  }

  /** The sorted rows are in key order and are exactly the input rows. */
  lemma {:induction false} SortByCorrect<T>(s: seq<T>, key: T -> Key)
    ensures SortedBy(SortBy(s, key), key)
    ensures multiset(SortBy(s, key)) == multiset(s)
    decreases |s|
  {
    if s != [] {
      SortByCorrect(s[1..], key);
      InsertKeeps(s[0], SortBy(s[1..], key), key);
      assert s == [s[0]] + s[1..];
    }
  }

  /** LIMIT n: the first n rows; SQLite reads a negative limit as "no limit". */
  function Limit<T>(s: seq<T>, n: int): (r: seq<T>)
    ensures r <= s
    ensures n < 0 ==> r == s
    ensures 0 <= n ==> |r| == if n < |s| then n else |s|
  {
    if n < 0 || |s| <= n then s else s[..n]
  }

  /** A row that the sorted, limited result leaves out is ordered after every row it returns. */
  lemma LimitDropsOnlyLater<T>(s: seq<T>, n: int, key: T -> Key, x: T)
    requires SortedBy(s, key)
    requires x in s && x !in Limit(s, n)
    ensures 0 <= n < |s| && |Limit(s, n)| == n
    ensures forall y :: y in Limit(s, n) ==> KeyLe(key(y), key(x))
  {
    var i :| 0 <= i < |s| && s[i] == x;
    assert n <= i;
    forall y | y in Limit(s, n) ensures KeyLe(key(y), key(x)) {
      var j :| 0 <= j < |Limit(s, n)| && Limit(s, n)[j] == y;
      assert s[j] == y;
    }
  }

  /** SELECT ... WHERE keep ORDER BY key LIMIT n. */
  function Select<T>(s: seq<T>, keep: T -> bool, key: T -> Key, n: int): seq<T>
  {
    Limit(SortBy(Filter(s, keep), key), n)
  }

  /**
   * What a SELECT returns: stored rows that satisfy the condition, in key
   * order, at most n of them; a matching row is left out only when n rows
   * ordered no later than it are returned; and when at most n rows match,
   * all of them are returned.
   */
  lemma SelectSpec<T>(s: seq<T>, keep: T -> bool, key: T -> Key, n: int)
    ensures forall x :: x in Select(s, keep, key, n) ==> x in s && keep(x)
    ensures SortedBy(Select(s, keep, key, n), key)
    ensures 0 <= n ==> |Select(s, keep, key, n)| <= n
    ensures forall x :: x in s && keep(x) && x !in Select(s, keep, key, n) ==>
      0 <= n == |Select(s, keep, key, n)| &&
      forall y :: y in Select(s, keep, key, n) ==> KeyLe(key(y), key(x))
    ensures n < 0 || |Filter(s, keep)| <= n ==>
      multiset(Select(s, keep, key, n)) == multiset(Filter(s, keep))
    ensures multiset(Select(s, keep, key, n)) <= multiset(Filter(s, keep))
  {
    var matching := Filter(s, keep);
    var sorted := SortBy(matching, key);
    var r := Select(s, keep, key, n);
    FilterMembers(s, keep);
    SortByCorrect(matching, key);
    assert r <= sorted;
    assert sorted == r + sorted[|r|..];
    assert multiset(sorted) == multiset(r) + multiset(sorted[|r|..]);
    forall x | x in r ensures x in s && keep(x) {
      assert x in multiset(sorted);
    }
    forall i, j | 0 <= i < j < |r| ensures KeyLe(key(r[i]), key(r[j])) {
      assert r[i] == sorted[i] && r[j] == sorted[j];
    }
    forall x | x in s && keep(x) && x !in r
      ensures 0 <= n == |r| && forall y :: y in r ==> KeyLe(key(y), key(x))
    {
      assert x in multiset(matching);
      assert x in sorted;
      LimitDropsOnlyLater(sorted, n, key, x);
    }
  }

  /**
   * AUTOINCREMENT: ids grow along the stored order, are positive and stay
   * below the next id to be handed out.
   */
  predicate IdsIncreasing<T>(s: seq<T>, id: T -> int, next: int)
  {
    && (forall i, j :: 0 <= i < j < |s| ==> id(s[i]) < id(s[j]))
    && (forall i :: 0 <= i < |s| ==> 0 < id(s[i]) < next)
  }

  /** The first row's id is below every later row's id. */
  lemma HeadBelowTail<T>(s: seq<T>, id: T -> int, next: int)
    requires IdsIncreasing(s, id, next) && s != []
    ensures forall y :: y in s[1..] ==> id(s[0]) < id(y)
  {
    forall y | y in s[1..] ensures id(s[0]) < id(y) {
      var k :| 0 <= k < |s[1..]| && s[1..][k] == y;
      assert s[k + 1] == y;
    }
  }

  /** A row with a smaller id than all of an increasing table can go in front of it. */
  lemma ConsKeepsIdsIncreasing<T>(x: T, rest: seq<T>, id: T -> int, next: int)
    requires IdsIncreasing(rest, id, next) && 0 < id(x) < next
    requires forall y :: y in rest ==> id(x) < id(y)
    ensures IdsIncreasing([x] + rest, id, next)
  {
    var r := [x] + rest;
    forall i, j | 0 <= i < j < |r| ensures id(r[i]) < id(r[j]) {
      assert r[j] == rest[j - 1];
      if i > 0 {
        assert r[i] == rest[i - 1];
      }
    }
    forall i | 0 <= i < |r| ensures 0 < id(r[i]) < next {
      if i > 0 {
        assert r[i] == rest[i - 1];
      }
    }
  }

  /** Deleting rows keeps the ids increasing. */
  lemma {:induction false} FilterKeepsIdsIncreasing<T>(s: seq<T>, keep: T -> bool, id: T -> int, next: int)
    requires IdsIncreasing(s, id, next)
    ensures IdsIncreasing(Filter(s, keep), id, next)
    decreases |s|
  {
    if s != [] {
      FilterKeepsIdsIncreasing(s[1..], keep, id, next);
      if keep(s[0]) {
        HeadBelowTail(s, id, next);
        FilterMembers(s[1..], keep);
        ConsKeepsIdsIncreasing(s[0], Filter(s[1..], keep), id, next);
      }
    }
  }

  /** A row appended with the next id keeps the ids increasing, and that id is new. */
  lemma AppendKeepsIdsIncreasing<T>(s: seq<T>, x: T, id: T -> int, next: int)
    requires IdsIncreasing(s, id, next) && 0 < next && id(x) == next
    ensures IdsIncreasing(s + [x], id, next + 1)
    ensures forall y :: y in s ==> id(y) != id(x)
  {
    var r := s + [x];
    forall i, j | 0 <= i < j < |r| ensures id(r[i]) < id(r[j]) {
      assert r[i] == s[i];
    }
    forall i | 0 <= i < |r| ensures 0 < id(r[i]) < next + 1 {
      if i < |s| {
        assert r[i] == s[i];
      }
    }
  }

  /** Rewriting rows in place without touching their ids keeps the ids increasing. */
  lemma SameIdsKeepIncreasing<T>(s: seq<T>, t: seq<T>, id: T -> int, next: int)
    requires IdsIncreasing(s, id, next)
    requires |t| == |s| && forall i :: 0 <= i < |s| ==> id(t[i]) == id(s[i])
    ensures IdsIncreasing(t, id, next)
  {
  }
}
