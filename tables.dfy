/**
 The pandas operations the dashboard relies on, restated over sequences:
 boolean-mask selection keeps an order-preserving subsequence,
 `value_counts()` tallies each distinct key and orders the tally by count,
 `head(n)` takes a prefix, and `nsmallest` is a stable ascending sort.

 pandas leaves the order of equal counts in `value_counts` unspecified; this
 model fixes it: keys with equal counts keep the order of their first
 appearance in the column.
 */
module Tables {

  /** `a` is `b` with some elements deleted, the rest kept in order. */
  ghost predicate Sub<T>(a: seq<T>, b: seq<T>) {
    if b == [] then a == []
    else (a != [] && a[0] == b[0] && Sub(a[1..], b[1..])) || Sub(a, b[1..])
  }

  lemma {:induction false} SubTransitive<T>(a: seq<T>, b: seq<T>, c: seq<T>)
    requires Sub(a, b) && Sub(b, c)
    ensures Sub(a, c)
    decreases |c|
  {
    if c != [] {
      if Sub(b, c[1..]) {
        SubTransitive(a, b, c[1..]);
      } else {
        assert b != [] && b[0] == c[0] && Sub(b[1..], c[1..]);
        if a != [] && a[0] == b[0] && Sub(a[1..], b[1..]) {
          SubTransitive(a[1..], b[1..], c[1..]);
        } else {
          SubTransitive(a, b[1..], c[1..]);
        }
      }
    }
  }

  lemma {:induction false} SubReflexive<T>(a: seq<T>)
    ensures Sub(a, a)
  {
    if a != [] {
      SubReflexive(a[1..]);
    }
  }

  ghost predicate NoDuplicates<T>(s: seq<T>) {
    forall i, j :: 0 <= i < j < |s| ==> s[i] != s[j]
  }

  /** The distinct elements of `s` in order of first appearance. */
  function Distinct<K(==,!new)>(s: seq<K>): (d: seq<K>)
    ensures NoDuplicates(d)
    ensures forall k :: k in d <==> k in s
  {
    if s == [] then []
    else
      var init, last := s[..|s| - 1], s[|s| - 1];
      assert s == init + [last];
      var d := Distinct(init);
      if last in d then d else d + [last]
  }

  /** A list without duplicates drawn from a set is no longer than the set. */
  lemma {:induction false} DistinctBound<T>(s: seq<T>, u: set<T>)
    requires NoDuplicates(s) && forall x :: x in s ==> x in u
    ensures |s| <= |u|
  {
    if s != [] {
      assert forall x :: x in s[1..] ==> x in u - {s[0]} by {
        forall x | x in s[1..] ensures x in u - {s[0]} {
          var k :| 0 <= k < |s[1..]| && s[1..][k] == x;
          assert s[k + 1] == x;
        }
      }
      DistinctBound(s[1..], u - {s[0]});
    }
  }

  /** One row of a `value_counts()` table. */
  datatype Counted<K> = Counted(key: K, count: nat)

  function KeysOf<K>(t: seq<Counted<K>>): (ks: seq<K>)
    ensures |ks| == |t| && forall i :: 0 <= i < |t| ==> ks[i] == t[i].key
  {
    seq(|t|, i requires 0 <= i < |t| => t[i].key)
  }

  /** The sum of the count column. */
  function TotalCount<K>(t: seq<Counted<K>>): nat {
    if t == [] then 0 else t[0].count + TotalCount(t[1..])
  }

  /** Pairs each key of `d` with its number of occurrences in `m`. */
  function Tally<K>(d: seq<K>, m: multiset<K>): (t: seq<Counted<K>>)
    ensures |t| == |d| && forall i :: 0 <= i < |d| ==> t[i] == Counted(d[i], m[d[i]])
  {
    if d == [] then [] else Tally(d[..|d| - 1], m) + [Counted(d[|d| - 1], m[d[|d| - 1]])]
  }

  /** `xs` ordered by ascending rank. */
  ghost predicate SortedBy<T>(xs: seq<T>, rank: T -> real) {
    forall i, j :: 0 <= i < j < |xs| ==> rank(xs[i]) <= rank(xs[j])
  }

  /** Puts `x` before the first element of `s` that does not rank below it. */
  function InsertBy<T>(x: T, s: seq<T>, rank: T -> real): (r: seq<T>)
    requires SortedBy(s, rank)
    ensures SortedBy(r, rank)
    ensures multiset(r) == multiset(s) + multiset{x}
  {
    if s == [] || rank(x) <= rank(s[0]) then
      [x] + s
    else
      var t := InsertBy(x, s[1..], rank);
      assert s == [s[0]] + s[1..];
      InsertedAfter(x, s, t, rank);
      [s[0]] + t
  }

  lemma InsertedAfter<T>(x: T, s: seq<T>, t: seq<T>, rank: T -> real)
    requires s != [] && SortedBy(s, rank) && rank(s[0]) < rank(x)
    requires multiset(t) == multiset(s[1..]) + multiset{x}
    requires SortedBy(t, rank)
    ensures SortedBy([s[0]] + t, rank)
  {
    forall j | 0 <= j < |t|
      ensures rank(s[0]) <= rank(t[j])
    {
      assert t[j] in multiset(t);
      if t[j] != x {
        assert t[j] in multiset(s[1..]);
        var k :| 0 <= k < |s[1..]| && s[1..][k] == t[j];
        assert s[k + 1] == t[j];
      }
    }
  }

  /** A stable insertion sort by ascending rank: elements of equal rank keep
      their relative order. */
  function SortBy<T>(xs: seq<T>, rank: T -> real): (r: seq<T>)
    ensures SortedBy(r, rank)
    ensures multiset(r) == multiset(xs)
  {
    if xs == [] then []
    else
      assert xs == [xs[0]] + xs[1..];
      InsertBy(xs[0], SortBy(xs[1..], rank), rank)
  }

  /** Rank that puts larger counts first. */
  function ByCountDescending<K>(c: Counted<K>): real {
    -(c.count as real)
  }

  /** pandas `Series.value_counts()`: every key of `s` exactly once, with its
      number of occurrences, counts never increasing down the table, and the
      counts adding up to the length of the column. */
  function ValueCounts<K(==,!new)>(s: seq<K>): (vc: seq<Counted<K>>)
    ensures forall i :: 0 <= i < |vc| ==> vc[i].key in s && vc[i].count == multiset(s)[vc[i].key]
    ensures forall i, j :: 0 <= i < j < |vc| ==> vc[i].count >= vc[j].count
    ensures NoDuplicates(KeysOf(vc))
    ensures forall k :: k in s ==> k in KeysOf(vc)
    ensures TotalCount(vc) == |s|
  {
    var t := Tally(Distinct(s), multiset(s));
    var vc := SortBy(t, ByCountDescending);
    TallyRows(s, vc);
    SortedCounts(vc);
    TallyKeysUnique(s, vc);
    TallyKeysCover(s, vc);
    TotalCountSort(t, ByCountDescending);
    TallyTotal(s);
    vc
  }

  /** pandas `head(n)`. */
  function Take<T>(s: seq<T>, n: nat): (r: seq<T>)
    ensures |r| <= n && |r| <= |s|
    ensures |s| <= n ==> r == s
  {
    if |s| <= n then s else s[..n]
  }

  lemma MultisetIndex<T>(s: seq<T>, i: nat, j: nat)
    requires i < j < |s| && s[i] == s[j]
    ensures multiset(s)[s[i]] >= 2
  {
    assert s == s[..j] + s[j..];
    assert s[i] in s[..j];
    assert s[j] in s[j..];
  }

  lemma {:induction false} NoDuplicatesOnce<T>(s: seq<T>, x: T)
    requires NoDuplicates(s)
    ensures multiset(s)[x] <= 1
  {
    if s != [] {
      assert s == [s[0]] + s[1..];
      NoDuplicatesOnce(s[1..], x);
      if s[0] == x {
        assert x !in s[1..];
      }
    }
  }

  lemma TallyRows<K(!new)>(s: seq<K>, vc: seq<Counted<K>>)
    requires multiset(vc) == multiset(Tally(Distinct(s), multiset(s)))
    ensures forall i :: 0 <= i < |vc| ==> vc[i].key in s && vc[i].count == multiset(s)[vc[i].key]
  {
    var d := Distinct(s);
    var t := Tally(d, multiset(s));
    forall i | 0 <= i < |vc|
      ensures vc[i].key in s && vc[i].count == multiset(s)[vc[i].key]
    {
      assert vc[i] in multiset(t);
      var p :| 0 <= p < |t| && t[p] == vc[i];
      assert d[p] in s;
    }
  }

  lemma SortedCounts<K>(vc: seq<Counted<K>>)
    requires SortedBy(vc, ByCountDescending)
    ensures forall i, j :: 0 <= i < j < |vc| ==> vc[i].count >= vc[j].count
  {
    forall i, j | 0 <= i < j < |vc|
      ensures vc[i].count >= vc[j].count
    {
      assert ByCountDescending(vc[i]) <= ByCountDescending(vc[j]);
    }
  }

  lemma TallyKeysUnique<K(!new)>(s: seq<K>, vc: seq<Counted<K>>)
    requires multiset(vc) == multiset(Tally(Distinct(s), multiset(s)))
    requires forall i :: 0 <= i < |vc| ==> vc[i].count == multiset(s)[vc[i].key]
    ensures NoDuplicates(KeysOf(vc))
  {
    var t := Tally(Distinct(s), multiset(s));
    forall i, j | 0 <= i < j < |vc|
      ensures vc[i].key != vc[j].key
    {
      if vc[i].key == vc[j].key {
        assert vc[i] == vc[j];
        MultisetIndex(vc, i, j);
        NoDuplicatesOnce(t, vc[i]);
        assert false;
      }
    }
  }

  lemma TallyKeysCover<K(!new)>(s: seq<K>, vc: seq<Counted<K>>)
    requires multiset(vc) == multiset(Tally(Distinct(s), multiset(s)))
    ensures forall k :: k in s ==> k in KeysOf(vc)
  {
    var d := Distinct(s);
    var t := Tally(d, multiset(s));
    forall k | k in s
      ensures k in KeysOf(vc)
    {
      var p :| 0 <= p < |d| && d[p] == k;
      assert t[p] in multiset(vc);
      var q :| 0 <= q < |vc| && vc[q] == t[p];
      assert KeysOf(vc)[q] == k;
    }
  }

  lemma {:induction false} TotalCountAppend<K>(a: seq<Counted<K>>, b: seq<Counted<K>>)
    ensures TotalCount(a + b) == TotalCount(a) + TotalCount(b)
  {
    if a != [] {
      assert (a + b)[0] == a[0] && (a + b)[1..] == a[1..] + b;
      TotalCountAppend(a[1..], b);
    } else {
      assert a + b == b;
    }
  }

  lemma {:induction false} TotalCountInsert<K>(x: Counted<K>, s: seq<Counted<K>>, rank: Counted<K> -> real)
    requires SortedBy(s, rank)
    ensures TotalCount(InsertBy(x, s, rank)) == x.count + TotalCount(s)
  {
    if s != [] && rank(x) > rank(s[0]) {
      TotalCountInsert(x, s[1..], rank);
    }
  }

  /** Sorting does not change the total. */
  lemma {:induction false} TotalCountSort<K>(t: seq<Counted<K>>, rank: Counted<K> -> real)
    ensures TotalCount(SortBy(t, rank)) == TotalCount(t)
  {
    if t != [] {
      TotalCountSort(t[1..], rank);
      TotalCountInsert(t[0], SortBy(t[1..], rank), rank);
    }
  }

  /** Adding one occurrence of a key that is absent from `d` leaves the
      counts of the keys of `d` alone. */
  lemma {:induction false} TallyTotalAbsent<K>(d: seq<K>, m: multiset<K>, x: K)
    requires x !in d
    ensures TotalCount(Tally(d, m + multiset{x})) == TotalCount(Tally(d, m))
  {
    if d != [] {
      var init, last := d[..|d| - 1], d[|d| - 1];
      TallyTotalAbsent(init, m, x);
      TotalCountAppend(Tally(init, m + multiset{x}), [Counted(last, (m + multiset{x})[last])]);
      TotalCountAppend(Tally(init, m), [Counted(last, m[last])]);
    }
  }

  /** Adding one occurrence of a key that `d` lists once adds one to the total. */
  lemma {:induction false} TallyTotalPresent<K>(d: seq<K>, m: multiset<K>, x: K)
    requires NoDuplicates(d) && x in d
    ensures TotalCount(Tally(d, m + multiset{x})) == TotalCount(Tally(d, m)) + 1
  {
    var init, last := d[..|d| - 1], d[|d| - 1];
    assert d == init + [last];
    TotalCountAppend(Tally(init, m + multiset{x}), [Counted(last, (m + multiset{x})[last])]);
    TotalCountAppend(Tally(init, m), [Counted(last, m[last])]);
    if last == x {
      TallyTotalAbsent(init, m, x);
    } else {
      TallyTotalPresent(init, m, x);
    }
  }

  /** The counts of the distinct keys of `s` add up to the length of `s`. */
  lemma {:induction false} TallyTotal<K(!new)>(s: seq<K>)
    ensures TotalCount(Tally(Distinct(s), multiset(s))) == |s|
  {
    if s != [] {
      var init, last := s[..|s| - 1], s[|s| - 1];
      assert s == init + [last];
      assert multiset(s) == multiset(init) + multiset{last};
      TallyTotal(init);
      var d := Distinct(init);
      if last in d {
        TallyTotalPresent(d, multiset(init), last);
      } else {
        TallyTotalAbsent(d, multiset(init), last);
        TotalCountAppend(Tally(d, multiset(s)), [Counted(last, multiset(s)[last])]);
        assert multiset(init)[last] == 0;
      }
    }
  }

  /** `value_counts().head(n)`: a prefix of the table of at most `n` rows; a
      key that it leaves out occurs no more often than any key it shows, and
      when fewer than `n` rows are shown, no key is left out. */
  lemma TopCounts<K(!new)>(s: seq<K>, n: nat)
    ensures var top := Take(ValueCounts(s), n);
      && |top| <= n
      && top == ValueCounts(s)[..|top|]
      && (forall i, j :: 0 <= i < j < |top| ==> top[i].count >= top[j].count)
      && (forall i :: 0 <= i < |top| ==> top[i].key in s && top[i].count == multiset(s)[top[i].key])
      && NoDuplicates(KeysOf(top))
      && (forall k :: k in s && k !in KeysOf(top) ==>
            forall i :: 0 <= i < |top| ==> multiset(s)[k] <= top[i].count)
      && (|top| < n ==> forall k :: k in s ==> k in KeysOf(top))
  {
    var vc := ValueCounts(s);
    var top := Take(vc, n);
    PrefixRows(s, vc, top);
    forall k | k in s && k !in KeysOf(top)
      ensures forall i :: 0 <= i < |top| ==> multiset(s)[k] <= top[i].count
    {
      NotShown(vc, top, k);
    }
  }

  /** A prefix of a value-count table keeps its row facts. */
  lemma PrefixRows<K>(s: seq<K>, vc: seq<Counted<K>>, top: seq<Counted<K>>)
    requires forall i :: 0 <= i < |vc| ==> vc[i].key in s && vc[i].count == multiset(s)[vc[i].key]
    requires forall i, j :: 0 <= i < j < |vc| ==> vc[i].count >= vc[j].count
    requires NoDuplicates(KeysOf(vc))
    requires |top| <= |vc| && top == vc[..|top|]
    ensures forall i, j :: 0 <= i < j < |top| ==> top[i].count >= top[j].count
    ensures forall i :: 0 <= i < |top| ==> top[i].key in s && top[i].count == multiset(s)[top[i].key]
    ensures NoDuplicates(KeysOf(top))
  {
    assert KeysOf(top) == KeysOf(vc)[..|top|];
  }

  lemma NotShown<K>(vc: seq<Counted<K>>, top: seq<Counted<K>>, k: K)
    requires forall i, j :: 0 <= i < j < |vc| ==> vc[i].count >= vc[j].count
    requires |top| <= |vc| && top == vc[..|top|]
    requires k in KeysOf(vc) && k !in KeysOf(top)
    ensures exists j :: |top| <= j < |vc| && vc[j].key == k && forall i :: 0 <= i < |top| ==> vc[j].count <= top[i].count
  {
    var j :| 0 <= j < |vc| && KeysOf(vc)[j] == k;
  }

  /** `value_counts().idxmax()`: on a non-empty column, the first row of the
      table names a key that occurs at least as often as any other. */
  lemma FirstIsModal<K(!new)>(s: seq<K>)
    requires s != []
    ensures var vc := ValueCounts(s);
      && vc != []
      && vc[0].key in s
      && forall k :: multiset(s)[k] <= vc[0].count
  {
    var vc := ValueCounts(s);
    assert s[0] in s;
    forall k
      ensures multiset(s)[k] <= vc[0].count
    {
      if k in s {
        var j :| 0 <= j < |vc| && KeysOf(vc)[j] == k;
      }
    }
  }

  function Sum(xs: seq<real>): real {
    if xs == [] then 0.0 else xs[0] + Sum(xs[1..])
  }

  /** The arithmetic mean, as pandas' `mean()` computes it. */
  function Mean(xs: seq<real>): real
    requires xs != []
  {
    Sum(xs) / (|xs| as real)
  }
}
