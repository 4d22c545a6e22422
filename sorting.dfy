/** Python's `sorted` under a key order (sortedness and permutation; its
    stability is not stated) and
    `statistics.median`, which the metrics, the log reader, the clock sync
    and the client's generation schedule all use. */
module Sorting {

  /** `le` is total and transitive: a key order for `sorted`. */
  ghost predicate TotalPreorder<T(!new)>(le: (T, T) -> bool)
  {
    (forall a, b :: le(a, b) || le(b, a)) &&
    (forall a, b, c :: le(a, b) && le(b, c) ==> le(a, c))
  }

  predicate SortedBy<T>(s: seq<T>, le: (T, T) -> bool)
  {
    forall i, j :: 0 <= i < j < |s| ==> le(s[i], s[j])
  }

  function IntLe(a: int, b: int): bool { a <= b }

  function RealLe(a: real, b: real): bool { a <= b }

  /** Places x in front of the first element it is not greater than;
      elements equal to x that were there before stay behind it. */
  function Insert<T>(x: T, s: seq<T>, le: (T, T) -> bool): (r: seq<T>)
    ensures |r| == |s| + 1
  {
    if s == [] then [x]
    else if le(x, s[0]) then [x] + s
    else [s[0]] + Insert(x, s[1..], le)
  }

  /** Insertion sort: the first element is inserted into the sorted rest. */
  function Sort<T>(s: seq<T>, le: (T, T) -> bool): (r: seq<T>)
    ensures |r| == |s|
  {
    if s == [] then [] else Insert(s[0], Sort(s[1..], le), le)
  }

  lemma {:induction false} InsertPermutes<T>(x: T, s: seq<T>, le: (T, T) -> bool)
    ensures multiset(Insert(x, s, le)) == multiset(s) + multiset{x}
  {
    if s != [] && !le(x, s[0]) {
      InsertPermutes(x, s[1..], le);
      assert s == [s[0]] + s[1..];
    }
  }

  /** `Sort` returns a permutation of its input. */
  lemma {:induction false} SortPermutes<T>(s: seq<T>, le: (T, T) -> bool)
    ensures multiset(Sort(s, le)) == multiset(s)
  {
    if s != [] {
      SortPermutes(s[1..], le);
      InsertPermutes(s[0], Sort(s[1..], le), le);
      assert s == [s[0]] + s[1..];
    }
  }

  lemma {:induction false} InsertSorted<T(!new)>(x: T, s: seq<T>, le: (T, T) -> bool)
    requires TotalPreorder(le)
    requires SortedBy(s, le)
    ensures SortedBy(Insert(x, s, le), le)
  {
    if s != [] && !le(x, s[0]) {
      InsertSorted(x, s[1..], le);
      var r := Insert(x, s[1..], le);
      InsertPermutes(x, s[1..], le);
      forall k | 0 <= k < |r|
        ensures le(s[0], r[k])
      {
        assert r[k] in multiset(r);
        assert r[k] in multiset(s[1..]) || r[k] == x;
        if r[k] != x {
          var j :| 0 <= j < |s[1..]| && s[1..][j] == r[k];
          assert s[j + 1] == r[k];
        }
      }
    }
  }

  /** `Sort` returns its input in ascending order. */
  lemma {:induction false} SortSorted<T(!new)>(s: seq<T>, le: (T, T) -> bool)
    requires TotalPreorder(le)
    ensures SortedBy(Sort(s, le), le)
  {
    if s != [] {
      SortSorted(s[1..], le);
      InsertSorted(s[0], Sort(s[1..], le), le);
    }
  }

  /** Every element of a sorted copy is an element of the original. */
  lemma SortedElementIsMember<T>(s: seq<T>, le: (T, T) -> bool, k: nat)
    requires k < |s|
    ensures Sort(s, le)[k] in s
  {
    SortPermutes(s, le);
    assert Sort(s, le)[k] in multiset(Sort(s, le));
  }

  lemma IntLeIsTotalPreorder()
    ensures TotalPreorder(IntLe)
  {
  }

  lemma RealLeIsTotalPreorder()
    ensures TotalPreorder(RealLe)
  {
  }

  /** `statistics.median`: the middle element of the sorted data, or the mean
      of the two middle elements when the count is even. */
  function Median(xs: seq<real>): real
    requires |xs| > 0
  {
    var s := Sort(xs, RealLe);
    var n := |s|;
    if n % 2 == 1 then s[n / 2] else (s[n / 2 - 1] + s[n / 2]) / 2.0
  }

  function CountBelow(s: seq<real>, m: real): (r: nat)
    ensures r <= |s|
  {
    if s == [] then 0 else CountBelow(s[1..], m) + (if s[0] < m then 1 else 0)
  }

  function CountAbove(s: seq<real>, m: real): (r: nat)
    ensures r <= |s|
  {
    if s == [] then 0 else CountAbove(s[1..], m) + (if s[0] > m then 1 else 0)
  }

  lemma {:induction false} CountsOfInsert(x: real, s: seq<real>, m: real)
    ensures CountBelow(Insert(x, s, RealLe), m) == CountBelow(s, m) + (if x < m then 1 else 0)
    ensures CountAbove(Insert(x, s, RealLe), m) == CountAbove(s, m) + (if x > m then 1 else 0)
  {
    if s != [] && !RealLe(x, s[0]) {
      CountsOfInsert(x, s[1..], m);
      assert Insert(x, s, RealLe)[1..] == Insert(x, s[1..], RealLe);
    }
  }

  lemma {:induction false} CountsOfSort(s: seq<real>, m: real)
    ensures CountBelow(Sort(s, RealLe), m) == CountBelow(s, m)
    ensures CountAbove(Sort(s, RealLe), m) == CountAbove(s, m)
  {
    if s != [] {
      CountsOfSort(s[1..], m);
      CountsOfInsert(s[0], Sort(s[1..], RealLe), m);
    }
  }

  /** In ascending data, nothing at or after a position holding a value >= m
      is below m. */
  lemma {:induction false} CountBelowSorted(s: seq<real>, k: nat, m: real)
    requires SortedBy(s, RealLe)
    requires k < |s| && m <= s[k]
    ensures CountBelow(s, m) <= k
  {
    if k == 0 {
      NoneBelow(s, m);
    } else {
      CountBelowSorted(s[1..], k - 1, m);
    }
  }

  lemma {:induction false} NoneBelow(s: seq<real>, m: real)
    requires SortedBy(s, RealLe)
    requires |s| > 0 && m <= s[0]
    ensures CountBelow(s, m) == 0
  {
    if |s| > 1 {
      NoneBelow(s[1..], m);
    }
  }

  /** In ascending data, nothing at or before a position holding a value <= m
      is above m. */
  lemma {:induction false} CountAboveSorted(s: seq<real>, k: nat, m: real)
    requires SortedBy(s, RealLe)
    requires k < |s| && s[k] <= m
    ensures CountAbove(s, m) <= |s| - k - 1
  {
    if k > 0 {
      CountAboveSorted(s[1..], k - 1, m);
    }
  }

  /** The median splits the data in halves: at most half of the values lie
      strictly below it and at most half strictly above it. */
  lemma MedianSplits(xs: seq<real>)
    requires |xs| > 0
    ensures CountBelow(xs, Median(xs)) <= |xs| / 2
    ensures CountAbove(xs, Median(xs)) <= |xs| / 2
  {
    var s := Sort(xs, RealLe);
    var n := |s|;
    var m := Median(xs);
    RealLeIsTotalPreorder();
    SortSorted(xs, RealLe);
    CountsOfSort(xs, m);
    if n % 2 == 1 {
      CountBelowSorted(s, n / 2, m);
      CountAboveSorted(s, n / 2, m);
    } else {
      assert s[n / 2 - 1] <= s[n / 2];
      CountBelowSorted(s, n / 2, m);
      CountAboveSorted(s, n / 2 - 1, m);
    }
  }

  /** The median of a single value is that value, and the median of a
      constant sample is the constant. */
  lemma MedianOfConstant(xs: seq<real>, c: real)
    requires |xs| > 0
    requires forall i :: 0 <= i < |xs| ==> xs[i] == c
    ensures Median(xs) == c
  {
    var s := Sort(xs, RealLe);
    SortPermutes(xs, RealLe);
    forall k | 0 <= k < |s| ensures s[k] == c {
      SortedElementIsMember(xs, RealLe, k);
    }
  }

  function ToReals(xs: seq<int>): (r: seq<real>)
    ensures |r| == |xs| && forall i :: 0 <= i < |xs| ==> r[i] == xs[i] as real
  {
    seq(|xs|, i requires 0 <= i < |xs| => xs[i] as real)
  }
}
