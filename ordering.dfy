/**
 * The ordering clauses of the report queries: ORDER BY over a total preorder
 * (insertion sort, which picks one of the orders SQL allows among ties),
 * LIMIT, GROUP BY keys in ascending order, and text order for names.
 */
module Ordering {

  /** `le` may be used to sort: every two values compare, and it is transitive. */
  ghost predicate TotalPreorder<T(!new)>(le: (T, T) -> bool) {
    && (forall a, b :: le(a, b) || le(b, a))
    && (forall a, b, c :: le(a, b) && le(b, c) ==> le(a, c))
  }

  predicate SortedBy<T>(xs: seq<T>, le: (T, T) -> bool) {
    forall i, j :: 0 <= i < j < |xs| ==> le(xs[i], xs[j])
  }

  function Insert<T>(x: T, xs: seq<T>, le: (T, T) -> bool): (r: seq<T>)
    ensures multiset(r) == multiset(xs) + multiset{x}
    ensures |r| == |xs| + 1
  {
    if |xs| == 0 then [x]
    else if le(x, xs[0]) then [x] + xs
    else
      assert xs == [xs[0]] + xs[1..];
      [xs[0]] + Insert(x, xs[1..], le)
  }

  lemma {:induction false} InsertSorted<T(!new)>(x: T, xs: seq<T>, le: (T, T) -> bool)
    requires TotalPreorder(le) && SortedBy(xs, le)
    ensures SortedBy(Insert(x, xs, le), le)
  {
    if |xs| > 0 && !le(x, xs[0]) {
      InsertSorted(x, xs[1..], le);
      var r := Insert(x, xs, le);
      var tail := Insert(x, xs[1..], le);
      assert r == [xs[0]] + tail;
      forall k | 0 <= k < |tail| ensures le(xs[0], tail[k]) {
        assert tail[k] in multiset(tail);
        assert tail[k] == x || tail[k] in multiset(xs[1..]);
        if tail[k] != x {
          var m :| 0 <= m < |xs[1..]| && xs[1..][m] == tail[k];
          assert xs[m + 1] == tail[k];
        }
      }
    }
  }

  /** ORDER BY `le`: the rows in an order `le` accepts. */
  function SortBy<T>(xs: seq<T>, le: (T, T) -> bool): (r: seq<T>)
    ensures multiset(r) == multiset(xs)
    ensures |r| == |xs|
  {
    if |xs| == 0 then []
    else
      assert xs == [xs[0]] + xs[1..];
      Insert(xs[0], SortBy(xs[1..], le), le)
  }

  lemma {:induction false} SortBySorted<T(!new)>(xs: seq<T>, le: (T, T) -> bool)
    requires TotalPreorder(le)
    ensures SortedBy(SortBy(xs, le), le)
  {
    if |xs| > 0 {
      SortBySorted(xs[1..], le);
      InsertSorted(xs[0], SortBy(xs[1..], le), le);
    }
  }

  /** LIMIT n. */
  function Take<T>(xs: seq<T>, n: nat): (r: seq<T>)
    ensures |r| == if n < |xs| then n else |xs|
    ensures r == xs[..|r|]
  {
    if n < |xs| then xs[..n] else xs
  }

  /** ORDER BY `le` LIMIT n. */
  function TopBy<T(!new)>(xs: seq<T>, le: (T, T) -> bool, n: nat): (r: seq<T>)
    requires TotalPreorder(le)
    ensures |r| == if n < |xs| then n else |xs|
    ensures SortedBy(r, le)
    ensures multiset(r) <= multiset(xs)
    ensures forall i :: 0 <= i < |r| ==> r[i] in xs
  {
    var sorted := SortBy(xs, le);
    SortBySorted(xs, le);
    var top := Take(sorted, n);
    assert sorted == top + sorted[|top|..];
    assert multiset(sorted) == multiset(top) + multiset(sorted[|top|..]);
    forall i | 0 <= i < |top| ensures top[i] in xs {
      assert top[i] in multiset(top);
      assert top[i] in multiset(sorted);
      assert top[i] in multiset(xs);
    }
    top
  }

  /**
   * ORDER BY `le` LIMIT n keeps the best rows: each row left out ranks at or
   * below every row kept (counting duplicates through multisets).
   */
  lemma TopRowsRankFirst<T(!new)>(xs: seq<T>, n: nat, le: (T, T) -> bool, x: T)
    requires TotalPreorder(le)
    requires multiset(TopBy(xs, le, n))[x] < multiset(xs)[x]
    ensures forall i :: 0 <= i < |TopBy(xs, le, n)| ==> le(TopBy(xs, le, n)[i], x)
  {
    var sorted := SortBy(xs, le);
    var top := Take(sorted, n);
    assert top == TopBy(xs, le, n);
    SortBySorted(xs, le);
    assert sorted == top + sorted[|top|..];
    assert multiset(sorted) == multiset(top) + multiset(sorted[|top|..]);
    assert x in multiset(sorted[|top|..]);
    var j :| 0 <= j < |sorted[|top|..]| && sorted[|top|..][j] == x;
    assert sorted[|top| + j] == x;
  }

  predicate Increasing(ks: seq<int>) {
    forall i, j :: 0 <= i < j < |ks| ==> ks[i] < ks[j]
  }

  function InsertKey(k: int, ks: seq<int>): (r: seq<int>)
    requires Increasing(ks)
    ensures Increasing(r)
    ensures forall x :: x in r <==> x == k || x in ks
  {
    if |ks| == 0 then [k]
    else if k < ks[0] then [k] + ks
    else if k == ks[0] then ks
    else
      assert forall x :: x in ks <==> x == ks[0] || x in ks[1..];
      var t := InsertKey(k, ks[1..]);
      forall x | x in ks[1..] ensures ks[0] < x {
        var j :| 0 <= j < |ks[1..]| && ks[1..][j] == x;
        assert ks[j + 1] == x;
      }
      assert forall i :: 0 <= i < |t| ==> t[i] in t;
      [ks[0]] + t
  }

  /** The distinct values of xs in ascending order: GROUP BY key ORDER BY key. */
  function Keys(xs: seq<int>): (ks: seq<int>)
    ensures Increasing(ks)
    ensures forall k :: k in ks <==> k in xs
  {
    if |xs| == 0 then []
    else
      assert forall k :: k in xs <==> k == xs[0] || k in xs[1..];
      InsertKey(xs[0], Keys(xs[1..]))
  }

  /** Text order by code point (ORDER BY name; the database collation is not modelled). */
  predicate LexLe(a: string, b: string) {
    |a| == 0 || (|b| > 0 && (a[0] < b[0] || (a[0] == b[0] && LexLe(a[1..], b[1..]))))
  }

  lemma {:induction false} LexLeTotal(a: string, b: string)
    ensures LexLe(a, b) || LexLe(b, a)
  {
    if |a| > 0 && |b| > 0 && a[0] == b[0] {
      LexLeTotal(a[1..], b[1..]);
    }
  }

  lemma {:induction false} LexLeTransitive(a: string, b: string, c: string)
    requires LexLe(a, b) && LexLe(b, c)
    ensures LexLe(a, c)
  {
    if |a| > 0 && a[0] == b[0] && b[0] == c[0] {
      LexLeTransitive(a[1..], b[1..], c[1..]);
    }
  }
}
