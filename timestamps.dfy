/**
 * The timing features of one wallet: its recorded timestamps are sorted
 * ascending, and the spread between the last and the first gives the activity
 * duration and the average gap between consecutive actions.
 */
module Timestamps {

  predicate Ascending(s: seq<int>)
  {
    forall i, j :: 0 <= i < j < |s| ==> s[i] <= s[j]
  }

  function Insert(x: int, s: seq<int>): (r: seq<int>)
    requires Ascending(s)
    ensures Ascending(r)
    ensures multiset(r) == multiset(s) + multiset{x}
  {
    if s == [] || x <= s[0] then [x] + s
    else
      var rest := Insert(x, s[1..]);
      assert s == [s[0]] + s[1..];
      PrependAscending(s[0], rest, x, s[1..]);
      [s[0]] + rest
  }

  /** Putting a lower bound of every element in front keeps a list ascending. */
  lemma PrependAscending(h: int, rest: seq<int>, x: int, tail: seq<int>)
    requires Ascending(rest)
    requires multiset(rest) == multiset(tail) + multiset{x}
    requires h <= x
    requires forall y | y in tail :: h <= y
    ensures Ascending([h] + rest)
  {
    forall k | 0 <= k < |rest| ensures h <= rest[k] {
      assert rest[k] in multiset(rest);
      if rest[k] != x {
        assert rest[k] in multiset(tail);
        assert rest[k] in tail;
      }
    }
    var r := [h] + rest;
    forall i, j | 0 <= i < j < |r| ensures r[i] <= r[j] {
      if i > 0 {
        assert r[i] == rest[i - 1] && r[j] == rest[j - 1];
      } else {
        assert r[j] == rest[j - 1];
      }
    }
  }

  /** Python's `sorted` on a list of integers. */
  function Sort(s: seq<int>): (r: seq<int>)
    ensures Ascending(r)
    ensures multiset(r) == multiset(s)
  {
    if s == [] then []
    else
      assert s == [s[0]] + s[1..];
      Insert(s[0], Sort(s[1..]))
  }

  /** The least timestamp, found by a scan rather than by sorting. */
  function MinOf(s: seq<int>): (m: int)
    requires |s| > 0
    ensures m in s
    ensures forall x | x in s :: m <= x
  {
    if |s| == 1 then s[0]
    else
      var t := MinOf(s[1..]);
      assert s == [s[0]] + s[1..];
      if s[0] <= t then s[0] else t
  }

  /** The greatest timestamp, found by a scan rather than by sorting. */
  function MaxOf(s: seq<int>): (m: int)
    requires |s| > 0
    ensures m in s
    ensures forall x | x in s :: x <= m
  {
    if |s| == 1 then s[0]
    else
      var t := MaxOf(s[1..]);
      assert s == [s[0]] + s[1..];
      if t <= s[0] then s[0] else t
  }

  /** An ascending rearrangement of a list starts with its least and ends with its greatest element. */
  lemma AscendingEnds(r: seq<int>, ts: seq<int>)
    requires |ts| > 0 && Ascending(r)
    requires multiset(r) == multiset(ts)
    ensures |r| == |ts|
    ensures r[0] == MinOf(ts) && r[|r| - 1] == MaxOf(ts)
  {
    assert |r| == |multiset(r)| && |ts| == |multiset(ts)|;
    var lo, hi := MinOf(ts), MaxOf(ts);
    assert r[0] in ts by {
      assert r[0] in multiset(r);
    }
    assert r[|r| - 1] in ts by {
      assert r[|r| - 1] in multiset(r);
    }
    assert lo in multiset(r) && hi in multiset(r);
    var i :| 0 <= i < |r| && r[i] == lo;
    var j :| 0 <= j < |r| && r[j] == hi;
    assert r[0] <= r[i];
    assert r[j] <= r[|r| - 1];
  }

  /** The first and last elements of the sorted list are the least and greatest timestamps. */
  lemma SortedEnds(ts: seq<int>)
    requires |ts| > 0
    ensures |Sort(ts)| == |ts|
    ensures Sort(ts)[0] == MinOf(ts)
    ensures Sort(ts)[|ts| - 1] == MaxOf(ts)
  {
    AscendingEnds(Sort(ts), ts);
  }

  /** `tx_duration_sec`: last minus first of the sorted timestamps, 0 with fewer than two. */
  function Duration(ts: seq<int>): (d: int)
    ensures d >= 0
    ensures |ts| < 2 ==> d == 0
    ensures |ts| >= 2 ==> d == MaxOf(ts) - MinOf(ts)
  {
    var sorted := Sort(ts);
    if |sorted| > 1 then
      SortedEnds(ts);
      sorted[|sorted| - 1] - sorted[0]
    else
      assert |ts| == |multiset(ts)| == |multiset(sorted)| == |sorted|;
      0
  }

  /** `avg_tx_gap_sec`: the duration spread over the gaps between the timestamps. */
  function AverageGap(ts: seq<int>): (g: real)
    ensures g >= 0.0
    ensures |ts| >= 2 ==> g * (|ts| - 1) as real == Duration(ts) as real
    ensures |ts| < 2 ==> g == 0.0
  {
    if |ts| > 1 then MeanGap(Duration(ts), |ts| - 1) else 0.0
  }

  /** A non-negative spread divided over a positive number of gaps. */
  function MeanGap(spread: int, gaps: int): (g: real)
    requires spread >= 0 && gaps > 0
    ensures g >= 0.0
    ensures g * gaps as real == spread as real
  {
    spread as real / gaps as real
  }

  /** Two lists with the same elements have the same least and greatest element. */
  lemma SameExtremes(a: seq<int>, b: seq<int>)
    requires |a| > 0 && |b| > 0
    requires forall x :: x in a <==> x in b
    ensures MinOf(a) == MinOf(b) && MaxOf(a) == MaxOf(b)
  {
    assert MinOf(a) in b && MinOf(b) in a;
    assert MaxOf(a) in b && MaxOf(b) in a;
  }

  /** Lists with the same multiset have the same length and the same elements. */
  lemma SameMultiset(a: seq<int>, b: seq<int>)
    requires multiset(a) == multiset(b)
    ensures |a| == |b|
    ensures forall x :: x in a <==> x in b
  {
    assert |a| == |multiset(a)| && |b| == |multiset(b)|;
    forall x ensures x in a <==> x in b {
      assert x in a <==> x in multiset(a);
      assert x in b <==> x in multiset(b);
    }
  }

  /** The duration depends only on the length and the extremes of the list. */
  lemma DurationIgnoresOrder(a: seq<int>, b: seq<int>)
    requires |a| == |b| >= 2
    requires forall x :: x in a <==> x in b
    ensures Duration(a) == Duration(b)
  {
    SameExtremes(a, b);
  }

  /** Both timing features depend only on the multiset of timestamps, not on their order. */
  lemma {:induction false} TimingIgnoresOrder(a: seq<int>, b: seq<int>)
    requires multiset(a) == multiset(b)
    ensures Duration(a) == Duration(b)
    ensures AverageGap(a) == AverageGap(b)
  {
    SameMultiset(a, b);
    if |a| >= 2 {
      DurationIgnoresOrder(a, b);
    }
  }
}
