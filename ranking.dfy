/** sort_values(...).head(n) and drop_duplicates over classified menu items:
    the extracts the dashboards hand to their assistant. */
module Ranking {
  import opened Menu

  /** The column a table is sorted by. */
  datatype SortKey = ByRevenue | ByProfit | ByPopularity

  function KeyOf(it: MenuItem, k: SortKey): real {
    match k
    case ByRevenue => it.revenue
    case ByProfit => it.profit
    case ByPopularity => it.popularity
  }

  /** x may come before y: a key at least as large when descending, at most
      as large when ascending. */
  predicate Ranks(x: MenuItem, y: MenuItem, k: SortKey, descending: bool) {
    if descending then KeyOf(x, k) >= KeyOf(y, k) else KeyOf(x, k) <= KeyOf(y, k)
  }

  predicate Ordered(s: seq<MenuItem>, k: SortKey, descending: bool) {
    forall i, j :: 0 <= i < j < |s| ==> Ranks(s[i], s[j], k, descending)
  }

  /** Puts x in front of the first element it ranks at least as high as. */
  function Insert(x: MenuItem, s: seq<MenuItem>, k: SortKey, descending: bool): (r: seq<MenuItem>)
    ensures |r| == |s| + 1
    ensures multiset(r) == multiset(s) + multiset{x}
    ensures r[0] == x || (s != [] && r[0] == s[0])
  {
    if s == [] then [x]
    else if Ranks(x, s[0], k, descending) then [x] + s
    else
      assert s == [s[0]] + s[1..];
      [s[0]] + Insert(x, s[1..], k, descending)
  }

  /** Insertion sort: the reference ordering of sort_values (ties in some order). */
  function Sort(s: seq<MenuItem>, k: SortKey, descending: bool): (r: seq<MenuItem>)
    ensures |r| == |s|
    ensures multiset(r) == multiset(s)
  {
    if s == [] then []
    else
      assert s == [s[0]] + s[1..];
      Insert(s[0], Sort(s[1..], k, descending), k, descending)
  }

  lemma {:induction false} InsertOrdered(x: MenuItem, s: seq<MenuItem>, k: SortKey, descending: bool)
    requires Ordered(s, k, descending)
    ensures Ordered(Insert(x, s, k, descending), k, descending)
  {
    if s != [] && !Ranks(x, s[0], k, descending) {
      var tail := s[1..];
      OrderedTail(s, k, descending);
      InsertOrdered(x, tail, k, descending);
      var rt := Insert(x, tail, k, descending);
      forall j | 0 <= j < |rt| ensures Ranks(s[0], rt[j], k, descending) {
        InsertMembers(x, tail, k, descending, rt[j]);
        if rt[j] != x {
          var m :| 0 <= m < |tail| && tail[m] == rt[j];
          assert s[m + 1] == rt[j];
        }
      }
      OrderedCons(s[0], rt, k, descending);
    }
  }

  /** Every row of Insert(x, s) is x or a row of s. */
  lemma {:induction false} InsertMembers(x: MenuItem, s: seq<MenuItem>, k: SortKey, descending: bool, y: MenuItem)
    requires y in Insert(x, s, k, descending)
    ensures y == x || y in s
  {
    if s != [] && !Ranks(x, s[0], k, descending) && y != s[0] {
      InsertMembers(x, s[1..], k, descending, y);
    }
  }

  lemma OrderedTail(s: seq<MenuItem>, k: SortKey, descending: bool)
    requires Ordered(s, k, descending) && s != []
    ensures Ordered(s[1..], k, descending)
  {
    var tail := s[1..];
    forall i, j | 0 <= i < j < |tail| ensures Ranks(tail[i], tail[j], k, descending) {
      assert tail[i] == s[i + 1] && tail[j] == s[j + 1];
    }
  }

  lemma OrderedCons(h: MenuItem, t: seq<MenuItem>, k: SortKey, descending: bool)
    requires Ordered(t, k, descending)
    requires forall j :: 0 <= j < |t| ==> Ranks(h, t[j], k, descending)
    ensures Ordered([h] + t, k, descending)
  {
    var r := [h] + t;
    forall i, j | 0 <= i < j < |r| ensures Ranks(r[i], r[j], k, descending) {
      assert r[j] == t[j - 1];
      if i > 0 { assert r[i] == t[i - 1]; }
    }
  }

  lemma {:induction false} SortOrdered(s: seq<MenuItem>, k: SortKey, descending: bool)
    ensures Ordered(Sort(s, k, descending), k, descending)
  {
    if s != [] {
      SortOrdered(s[1..], k, descending);
      InsertOrdered(s[0], Sort(s[1..], k, descending), k, descending);
    }
  }

  function Min(a: nat, b: nat): nat {
    if a <= b then a else b
  }

  /** sort_values(k, ascending = !descending).head(n): min(n, |s|) rows, in
      order, all taken from s. */
  function Head(s: seq<MenuItem>, k: SortKey, descending: bool, n: nat): (r: seq<MenuItem>)
    ensures |r| == Min(n, |s|)
    ensures Ordered(r, k, descending)
    ensures multiset(r) <= multiset(s)
  {
    var d := Sort(s, k, descending);
    var m := Min(n, |s|);
    SortOrdered(s, k, descending);
    SplitMultiset(d, m);
    d[..m]
  }

  /** A cut splits the rows' multiset in two. */
  lemma SplitMultiset(d: seq<MenuItem>, m: nat)
    requires m <= |d|
    ensures multiset(d) == multiset(d[..m]) + multiset(d[m..])
  {
    assert d == d[..m] + d[m..];
  }

  /** No row left out of the extract ranks above a row kept in it. */
  lemma HeadKeepsBest(s: seq<MenuItem>, k: SortKey, descending: bool, n: nat, x: MenuItem, y: MenuItem)
    requires x in multiset(s) - multiset(Head(s, k, descending, n))
    requires y in Head(s, k, descending, n)
    ensures Ranks(y, x, k, descending)
  {
    HeadLeavesRest(s, k, descending, n, x);
    SortOrdered(s, k, descending);
    OrderedSplit(Sort(s, k, descending), k, descending, Min(n, |s|), x, y);
  }

  /** What head(n) leaves out is the rest of the sorted table. */
  lemma HeadLeavesRest(s: seq<MenuItem>, k: SortKey, descending: bool, n: nat, x: MenuItem)
    requires x in multiset(s) - multiset(Head(s, k, descending, n))
    ensures x in Sort(s, k, descending)[Min(n, |s|)..]
  {
    var d := Sort(s, k, descending);
    var m := Min(n, |s|);
    var h, rest := d[..m], d[m..];
    assert Head(s, k, descending, n) == h;
    SplitMultiset(d, m);
    assert x in multiset(rest);
  }

  /** In an ordered table every row of a prefix ranks at least as high as every row after it. */
  lemma OrderedSplit(d: seq<MenuItem>, k: SortKey, descending: bool, m: nat, x: MenuItem, y: MenuItem)
    requires Ordered(d, k, descending) && m <= |d|
    requires x in d[m..] && y in d[..m]
    ensures Ranks(y, x, k, descending)
  {
    var rest, h := d[m..], d[..m];
    var j :| 0 <= j < |rest| && rest[j] == x;
    var i :| 0 <= i < |h| && h[i] == y;
    assert d[i] == y && d[m + j] == x;
  }

  /** drop_duplicates: keeps the first occurrence of every row, in order. */
  function Dedup(s: seq<MenuItem>): (r: seq<MenuItem>)
    ensures |r| <= |s|
    ensures forall x :: x in r <==> x in s
  {
    if s == [] then []
    else
      var d := Dedup(s[..|s| - 1]);
      assert forall x :: x in s <==> x in s[..|s| - 1] || x == s[|s| - 1] by {
        assert s == s[..|s| - 1] + [s[|s| - 1]];
      }
      if s[|s| - 1] in d then d else d + [s[|s| - 1]]
  }

  /** No row occurs twice after drop_duplicates. */
  lemma {:induction false} DedupDistinct(s: seq<MenuItem>)
    ensures forall i, j :: 0 <= i < j < |Dedup(s)| ==> Dedup(s)[i] != Dedup(s)[j]
  {
    if s != [] {
      DedupDistinct(s[..|s| - 1]);
    }
  }

  /** Rows added later never displace an earlier first occurrence. */
  lemma {:induction false} DedupPrefix(a: seq<MenuItem>, b: seq<MenuItem>)
    ensures Dedup(a) <= Dedup(a + b)
    decreases |b|
  {
    if b != [] {
      var ab := a + b;
      assert ab[..|ab| - 1] == a + b[..|b| - 1];
      DedupPrefix(a, b[..|b| - 1]);
    } else {
      assert a + b == a;
    }
  }
}
