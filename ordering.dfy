/** The database queries' `where` / `orderBy ... desc` / `take` as
    functions on a table: keep the rows a condition selects, sort them by a
    key with the highest first, and keep the first `n`. */
module Ordering {

  /** A sort key compared lexicographically: `orderBy: [major, minor]`. */
  datatype Rank = Rank(major: int, minor: int)

  predicate RankLe(a: Rank, b: Rank) {
    a.major < b.major || (a.major == b.major && a.minor <= b.minor)
  }

  /** Every row ranks at least as high as every later row. */
  ghost predicate SortedDesc<T>(s: seq<T>, key: T -> Rank) {
    forall i, j :: 0 <= i < j < |s| ==> RankLe(key(s[j]), key(s[i]))
  }

  /** `where`. */
  function Filter<T>(s: seq<T>, p: T -> bool): (r: seq<T>)
    ensures |r| <= |s|
  {
    if s == [] then [] else (if p(s[0]) then [s[0]] else []) + Filter(s[1..], p)
  }

  /** The rows of the table the condition selects, each as often as it
      occurs there. */
  lemma {:induction false} FilterExact<T>(s: seq<T>, p: T -> bool)
    ensures forall x :: x in Filter(s, p) <==> x in s && p(x)
    ensures forall x :: p(x) ==> multiset(Filter(s, p))[x] == multiset(s)[x]
    ensures forall x :: !p(x) ==> multiset(Filter(s, p))[x] == 0
  {
    if s != [] {
      FilterExact(s[1..], p);
      assert s == [s[0]] + s[1..];
    }
  }

  /** Place `x` before the first row that ranks no higher. */
  function Insert<T>(x: T, s: seq<T>, key: T -> Rank): (r: seq<T>)
    ensures multiset(r) == multiset(s) + multiset{x}
  {
    if s == [] || RankLe(key(s[0]), key(x)) then [x] + s
    else
      assert s == [s[0]] + s[1..];
      [s[0]] + Insert(x, s[1..], key)
  }

  lemma {:induction false} InsertSorted<T>(x: T, s: seq<T>, key: T -> Rank)
    requires SortedDesc(s, key)
    ensures SortedDesc(Insert(x, s, key), key)
  {
    if !(s == [] || RankLe(key(s[0]), key(x))) {
      var rest := Insert(x, s[1..], key);
      assert SortedDesc(s[1..], key) by {
        forall i, j | 0 <= i < j < |s[1..]| ensures RankLe(key(s[1..][j]), key(s[1..][i])) {
          assert s[1..][i] == s[i + 1] && s[1..][j] == s[j + 1];
        }
      }
      InsertSorted(x, s[1..], key);
      forall j | 0 <= j < |rest| ensures RankLe(key(rest[j]), key(s[0])) {
        assert rest[j] in multiset(s[1..]) + multiset{x};
        if rest[j] != x {
          assert rest[j] in s[1..];
          var m :| 0 <= m < |s[1..]| && s[1..][m] == rest[j];
          assert s[m + 1] == rest[j];
        }
      }
      var r := [s[0]] + rest;
      forall i, j | 0 <= i < j < |r| ensures RankLe(key(r[j]), key(r[i])) {
        if i > 0 {
          assert r[i] == rest[i - 1] && r[j] == rest[j - 1];
        } else {
          assert r[j] == rest[j - 1];
        }
      }
    }
  }

  /** `orderBy: { key: 'desc' }` by insertion. */
  function SortDesc<T>(s: seq<T>, key: T -> Rank): (r: seq<T>)
    ensures multiset(r) == multiset(s)
  {
    if s == [] then []
    else
      assert s == [s[0]] + s[1..];
      Insert(s[0], SortDesc(s[1..], key), key)
  }

  /** The sort orders its rows, highest first. */
  lemma {:induction false} SortDescSorted<T>(s: seq<T>, key: T -> Rank)
    ensures SortedDesc(SortDesc(s, key), key)
  {
    if s != [] {
      SortDescSorted(s[1..], key);
      InsertSorted(s[0], SortDesc(s[1..], key), key);
    }
  }

  /** `take: n`. */
  function Take<T>(s: seq<T>, n: nat): (r: seq<T>)
    ensures |r| <= n && |r| <= |s|
  {
    if |s| <= n then s else s[..n]
  }

  /** `findMany({ where: p, orderBy: key desc, take: n })`. */
  function Query<T>(s: seq<T>, p: T -> bool, key: T -> Rank, n: nat): seq<T> {
    Take(SortDesc(Filter(s, p), key), n)
  }

  /** A query answers at most `n` rows, each a selected row of the table,
      highest key first, and none of the unanswered selected rows ranks
      higher than an answered one; when at most `n` rows are selected,
      all of them are answered. */
  lemma QueryProperties<T>(s: seq<T>, p: T -> bool, key: T -> Rank, n: nat)
    ensures var r := Query(s, p, key, n);
      |r| <= n && (forall x :: x in r ==> x in s && p(x)) && SortedDesc(r, key)
    ensures |Filter(s, p)| <= n ==> multiset(Query(s, p, key, n)) == multiset(Filter(s, p))
    ensures var sorted := SortDesc(Filter(s, p), key);
      forall i, j :: 0 <= i < |Query(s, p, key, n)| <= j < |sorted| ==> RankLe(key(sorted[j]), key(Query(s, p, key, n)[i]))
  {
    var f := Filter(s, p);
    var sorted := SortDesc(f, key);
    var r := Query(s, p, key, n);
    SortDescSorted(f, key);
    FilterExact(s, p);
    forall x | x in r ensures x in s && p(x) {
      assert x in sorted;
      assert x in multiset(f);
    }
    assert forall i :: 0 <= i < |r| ==> r[i] == sorted[i];
  }

  /** A selected row that the query leaves out ranks no higher than any
      answered row; when at most `n` rows are selected, none is left out. */
  lemma QueryLeftOut<T>(s: seq<T>, p: T -> bool, key: T -> Rank, n: nat)
    ensures forall x, i :: x in s && p(x) && x !in Query(s, p, key, n) && 0 <= i < |Query(s, p, key, n)| ==>
      RankLe(key(x), key(Query(s, p, key, n)[i]))
    ensures |Filter(s, p)| <= n ==> forall x :: x in s && p(x) ==> x in Query(s, p, key, n)
  {
    var f := Filter(s, p);
    var sorted := SortDesc(f, key);
    var r := Query(s, p, key, n);
    FilterExact(s, p);
    SortDescSorted(f, key);
    forall x | x in s && p(x) && x !in r
      ensures exists k :: |r| <= k < |sorted| && sorted[k] == x
    {
      LeftOutPosition(f, sorted, r, x);
    }
    forall x, i | x in s && p(x) && x !in r && 0 <= i < |r| ensures RankLe(key(x), key(r[i])) {
      var k :| |r| <= k < |sorted| && sorted[k] == x;
      assert r[i] == sorted[i];
    }
  }

  /** A row of `f` missing from a prefix `r` of its permutation `sorted`
      sits in `sorted` after that prefix; a prefix as long as `f` misses
      none. */
  lemma LeftOutPosition<T>(f: seq<T>, sorted: seq<T>, r: seq<T>, x: T)
    requires multiset(sorted) == multiset(f) && r == Take(sorted, |r|) && x in f && x !in r
    ensures |r| < |f| && exists k :: |r| <= k < |sorted| && sorted[k] == x
  {
    assert x in multiset(sorted);
    var k :| 0 <= k < |sorted| && sorted[k] == x;
    assert |sorted| == |f|;
  }
}
