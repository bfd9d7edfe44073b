/** Sums, truncating averages, ascending sorting and the median used to
    summarize the counters of all trials. */
module Stats {

  /** Sum of a list of counters. */
  function Sum(xs: seq<nat>): nat
  {
    if |xs| == 0 then 0 else xs[0] + Sum(xs[1..])
  }

  /** The sum of a concatenation is the sum of the parts. */
  lemma {:induction false} SumAppend(a: seq<nat>, b: seq<nat>)
    ensures Sum(a + b) == Sum(a) + Sum(b)
    decreases |a|
  {
    if |a| == 0 {
      assert a + b == b;
    } else {
      assert (a + b)[0] == a[0];
      assert (a + b)[1..] == a[1..] + b;
      SumAppend(a[1..], b);
    }
  }

  /** A list whose every element is at least `c` sums to at least `c` per element. */
  lemma {:induction false} SumAtLeast(xs: seq<nat>, c: nat)
    requires forall i :: 0 <= i < |xs| ==> xs[i] >= c
    ensures Sum(xs) >= c * |xs|
    decreases |xs|
  {
    if |xs| > 0 {
      assert forall i :: 0 <= i < |xs| - 1 ==> xs[1..][i] == xs[i + 1];
      SumAtLeast(xs[1..], c);
    }
  }

  /** `q` is `total / n` truncated: the largest multiple of `n` not above
      `total` is `q * n`. */
  predicate TruncatedMean(q: nat, total: nat, n: nat)
  {
    q * n <= total < (q + 1) * n
  }

  /** Truncating division of a total by the number of trials, as `usize`
      division does for non-negative operands. */
  function TruncDiv(total: nat, n: nat): (q: nat)
    requires n >= 1
    ensures TruncatedMean(q, total, n)
  {
    total / n
  }

  /** Ascending order. */
  predicate Sorted(xs: seq<nat>)
  {
    forall i, j :: 0 <= i <= j < |xs| ==> xs[i] <= xs[j]
  }

  /** Inserts `x` into an ascending list. */
  function Insert(x: nat, xs: seq<nat>): (r: seq<nat>)
    requires Sorted(xs)
    ensures Sorted(r)
    ensures multiset(r) == multiset(xs) + multiset{x}
    ensures |r| == |xs| + 1
    ensures r[0] == x || (|xs| > 0 && r[0] == xs[0])
    decreases |xs|
  {
    if |xs| == 0 then [x]
    else if x <= xs[0] then [x] + xs
    else
      var rest := Insert(x, xs[1..]);
      assert xs == [xs[0]] + xs[1..];
      assert xs[0] <= rest[0];
      var r := [xs[0]] + rest;
      assert forall i, j :: 0 <= i <= j < |r| ==> r[i] <= r[j] by {
        forall i, j | 0 <= i <= j < |r|
          ensures r[i] <= r[j]
        {
          if i == 0 && j > 0 {
            assert r[j] == rest[j - 1] && rest[0] <= rest[j - 1];
          } else if i > 0 {
            assert r[i] == rest[i - 1] && r[j] == rest[j - 1];
          }
        }
      }
      r
  }

  /** An ascending copy of a list: `Vec::sort` on the counters. */
  function Sort(xs: seq<nat>): (r: seq<nat>)
    ensures Sorted(r)
    ensures multiset(r) == multiset(xs)
    decreases |xs|
  {
    if |xs| == 0 then []
    else
      assert xs == [xs[0]] + xs[1..];
      Insert(xs[0], Sort(xs[1..]))
  }

  /** The tail of an ascending list is ascending and its head is its least
      element. */
  lemma SortedTail(a: seq<nat>)
    requires Sorted(a) && |a| > 0
    ensures Sorted(a[1..])
    ensures forall k :: 0 <= k < |a| ==> a[0] <= a[k]
  {
    var t := a[1..];
    forall i, j | 0 <= i <= j < |t|
      ensures t[i] <= t[j]
    {
      assert t[i] == a[i + 1] && t[j] == a[j + 1];
    }
  }

  /** Two ascending lists with the same elements are equal, so the sorted copy
      does not depend on the sorting algorithm. */
  lemma {:induction false} SortedUnique(a: seq<nat>, b: seq<nat>)
    requires Sorted(a) && Sorted(b)
    requires multiset(a) == multiset(b)
    ensures a == b
    decreases |a|
  {
    assert |a| == |multiset(a)| == |multiset(b)| == |b|;
    if |a| > 0 {
      SortedTail(a);
      SortedTail(b);
      assert a[0] in multiset(b) && b[0] in multiset(a);
      var i :| 0 <= i < |b| && b[i] == a[0];
      var j :| 0 <= j < |a| && a[j] == b[0];
      assert a[0] == b[0];
      assert a == [a[0]] + a[1..] && b == [b[0]] + b[1..];
      assert multiset(a[1..]) == multiset(a) - multiset{a[0]};
      assert multiset(b[1..]) == multiset(b) - multiset{b[0]};
      SortedUnique(a[1..], b[1..]);
    }
  }

  /** Which side of a pivot is counted: values at most it, or at least it. */
  datatype Side = Below | Above

  predicate OnSide(side: Side, pivot: nat, v: nat)
  {
    match side
    case Below => v <= pivot
    case Above => v >= pivot
  }

  /** Number of elements of `xs` on the given side of `pivot`. */
  function Count(xs: seq<nat>, side: Side, pivot: nat): nat
  {
    if |xs| == 0 then 0
    else (if OnSide(side, pivot, xs[0]) then 1 else 0) + Count(xs[1..], side, pivot)
  }

  lemma {:induction false} CountAppend(a: seq<nat>, b: seq<nat>, side: Side, pivot: nat)
    ensures Count(a + b, side, pivot) == Count(a, side, pivot) + Count(b, side, pivot)
    decreases |a|
  {
    if |a| == 0 {
      assert a + b == b;
    } else {
      assert (a + b)[0] == a[0];
      assert (a + b)[1..] == a[1..] + b;
      CountAppend(a[1..], b, side, pivot);
    }
  }

  /** When every element is on the counted side, all are counted. */
  lemma {:induction false} CountAll(xs: seq<nat>, side: Side, pivot: nat)
    requires forall i :: 0 <= i < |xs| ==> OnSide(side, pivot, xs[i])
    ensures Count(xs, side, pivot) == |xs|
    decreases |xs|
  {
    if |xs| > 0 {
      assert forall i :: 0 <= i < |xs| - 1 ==> xs[1..][i] == xs[i + 1];
      CountAll(xs[1..], side, pivot);
    }
  }

  /** Counting a list is counting one chosen element plus the rest. */
  lemma CountRemove(b: seq<nat>, i: nat, side: Side, pivot: nat)
    requires i < |b|
    ensures Count(b, side, pivot)
         == (if OnSide(side, pivot, b[i]) then 1 else 0) + Count(b[..i] + b[i + 1..], side, pivot)
  {
    var x := b[i];
    assert b == b[..i] + ([x] + b[i + 1..]);
    CountAppend(b[..i], [x] + b[i + 1..], side, pivot);
    CountAppend([x], b[i + 1..], side, pivot);
    CountAppend(b[..i], b[i + 1..], side, pivot);
    assert [x][1..] == [];
  }

  /** Removing the element at index `i` removes one copy of it from the
      multiset. */
  lemma RemoveOne(b: seq<nat>, i: nat)
    requires i < |b|
    ensures multiset(b[..i] + b[i + 1..]) == multiset(b) - multiset{b[i]}
  {
    assert b == b[..i] + [b[i]] + b[i + 1..];
  }

  /** Reordering a list does not change how many of its elements are counted. */
  lemma {:induction false} CountPermutation(a: seq<nat>, b: seq<nat>, side: Side, pivot: nat)
    requires multiset(a) == multiset(b)
    ensures Count(a, side, pivot) == Count(b, side, pivot)
    decreases |a|
  {
    assert |a| == |multiset(a)| == |multiset(b)| == |b|;
    if |a| > 0 {
      var x := a[0];
      assert x in multiset(b);
      var i :| 0 <= i < |b| && b[i] == x;
      var rest := b[..i] + b[i + 1..];
      RemoveOne(b, i);
      assert a == [x] + a[1..];
      assert multiset(a[1..]) == multiset(a) - multiset{x};
      CountPermutation(a[1..], rest, side, pivot);
      CountRemove(b, i, side, pivot);
    }
  }

  /** In an ascending list the element at index `k` has the `k + 1` elements up
      to it below or at it, and the `|s| - k` elements from it on at or above it. */
  lemma SortedSplit(s: seq<nat>, k: nat)
    requires Sorted(s) && k < |s|
    ensures Count(s, Below, s[k]) >= k + 1
    ensures Count(s, Above, s[k]) >= |s| - k
  {
    SortedSplitBelow(s, k);
    SortedSplitAbove(s, k);
  }

  lemma SortedSplitBelow(s: seq<nat>, k: nat)
    requires Sorted(s) && k < |s|
    ensures Count(s, Below, s[k]) >= k + 1
  {
    var low := s[..k + 1];
    assert forall i :: 0 <= i < |low| ==> low[i] == s[i] && s[i] <= s[k];
    CountAll(low, Below, s[k]);
    assert s == low + s[k + 1..];
    CountAppend(low, s[k + 1..], Below, s[k]);
  }

  lemma SortedSplitAbove(s: seq<nat>, k: nat)
    requires Sorted(s) && k < |s|
    ensures Count(s, Above, s[k]) >= |s| - k
  {
    var high := s[k..];
    assert forall i :: 0 <= i < |high| ==> high[i] == s[k + i] && s[k] <= s[k + i];
    CountAll(high, Above, s[k]);
    assert s == s[..k] + high;
    CountAppend(s[..k], high, Above, s[k]);
  }

  /** The element at index N/2 of the ascending copy: the middle element for
      odd N and the upper of the two middle elements for even N. */
  function Median(xs: seq<nat>): (r: nat)
    requires |xs| >= 1
    ensures r in multiset(xs)
    ensures Count(xs, Below, r) >= |xs| / 2 + 1
    ensures Count(xs, Above, r) >= |xs| - |xs| / 2
  {
    var s := Sort(xs);
    assert |s| == |multiset(s)| == |xs|;
    SortedSplit(s, |xs| / 2);
    CountPermutation(s, xs, Below, s[|xs| / 2]);
    CountPermutation(s, xs, Above, s[|xs| / 2]);
    assert s[|xs| / 2] in multiset(s);
    s[|xs| / 2]
  }

  /** The median is the element at index N/2 of every ascending permutation of
      the list. */
  lemma MedianOfAnySortedCopy(xs: seq<nat>, s: seq<nat>)
    requires |xs| >= 1
    requires Sorted(s) && multiset(s) == multiset(xs)
    ensures |s| == |xs|
    ensures Median(xs) == s[|xs| / 2]
  {
    assert |s| == |multiset(s)| == |xs|;
    SortedUnique(s, Sort(xs));
  }

  lemma AscendingFour(a: nat, b: nat, c: nat, d: nat)
    requires a <= b <= c <= d
    ensures Sorted([a, b, c, d])
  {
  }

  lemma ShuffledFour(a: nat, b: nat, c: nat, d: nat)
    ensures multiset([a, b, c, d]) == multiset([d, a, c, b])
  {
  }

  /** For four values the median is the upper of the two middle ones, not
      their mean. */
  lemma MedianOfFour(a: nat, b: nat, c: nat, d: nat)
    requires a <= b <= c <= d
    ensures Median([d, a, c, b]) == c
  {
    AscendingFour(a, b, c, d);
    ShuffledFour(a, b, c, d);
    MedianOfAnySortedCopy([d, a, c, b], [a, b, c, d]);
  }
}
