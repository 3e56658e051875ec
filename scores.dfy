/** Arithmetic on lists of scores: `sum`, the mean `sum(xs) / len(xs)`,
    `sorted(xs, reverse=True)` and the slice of the three largest values.
    Scores are exact reals. */
module Scores {

  /** `sum(xs)`, added from the left. */
  function Sum(xs: seq<real>): real
  {
    if xs == [] then 0.0 else Sum(xs[..|xs| - 1]) + xs[|xs| - 1]
  }

  lemma {:induction false} SumBounds(xs: seq<real>, lo: real, hi: real)
    requires forall i :: 0 <= i < |xs| ==> lo <= xs[i] <= hi
    ensures lo * |xs| as real <= Sum(xs) <= hi * |xs| as real
    decreases |xs|
  {
    if xs != [] {
      SumBounds(xs[..|xs| - 1], lo, hi);
    }
  }

  /** The arithmetic mean, or 0 for an empty list. */
  function Mean(xs: seq<real>): (m: real)
    ensures xs == [] ==> m == 0.0
    ensures xs != [] ==> m * |xs| as real == Sum(xs)
  {
    if xs == [] then 0.0 else Sum(xs) / |xs| as real
  }

  /** A mean lies between the least and the greatest of its values. */
  lemma MeanBounds(xs: seq<real>, lo: real, hi: real)
    requires xs != []
    requires forall i :: 0 <= i < |xs| ==> lo <= xs[i] <= hi
    ensures lo <= Mean(xs) <= hi
  {
    SumBounds(xs, lo, hi);
  }

  // ---------------------------------------------------------------------------
  // sorted(xs, reverse=True)[:3]

  predicate SortedDesc(s: seq<real>)
  {
    forall i, j :: 0 <= i < j < |s| ==> s[i] >= s[j]
  }

  /** Inserts `x` in front of the first value it is not smaller than. */
  function InsertDesc(x: real, s: seq<real>): (r: seq<real>)
    ensures |r| == |s| + 1
    ensures multiset(r) == multiset(s) + multiset{x}
    decreases |s|
  {
    if s == [] then [x]
    else if x >= s[0] then [x] + s
    else
      assert s == [s[0]] + s[1..];
      [s[0]] + InsertDesc(x, s[1..])
  }

  lemma {:induction false} InsertDescSorted(x: real, s: seq<real>)
    requires SortedDesc(s)
    ensures SortedDesc(InsertDesc(x, s))
    decreases |s|
  {
    if s == [] {
    } else if x >= s[0] {
      forall k | 0 <= k < |s| ensures s[k] <= x {
        assert s[0] >= s[k] || k == 0;
      }
      ConsSorted(x, s);
    } else {
      var t := InsertDesc(x, s[1..]);
      InsertDescSorted(x, s[1..]);
      forall k | 0 <= k < |s[1..]| ensures s[1..][k] <= s[0] {
        assert s[0] >= s[k + 1];
      }
      InsertBound(x, s[1..], s[0]);
      ConsSorted(s[0], t);
    }
  }

  /** Every value of an insertion stays below a bound of its inputs. */
  lemma {:induction false} InsertBound(x: real, s: seq<real>, h: real)
    requires x <= h
    requires forall k :: 0 <= k < |s| ==> s[k] <= h
    ensures forall k :: 0 <= k < |InsertDesc(x, s)| ==> InsertDesc(x, s)[k] <= h
    decreases |s|
  {
    if s != [] && x < s[0] {
      InsertBound(x, s[1..], h);
    }
  }

  lemma ConsSorted(h: real, t: seq<real>)
    requires SortedDesc(t)
    requires forall k :: 0 <= k < |t| ==> t[k] <= h
    ensures SortedDesc([h] + t)
  {
    var r := [h] + t;
    forall i, j | 0 <= i < j < |r| ensures r[i] >= r[j] {
      assert r[j] == t[j - 1];
      if i > 0 {
        assert r[i] == t[i - 1];
      }
    }
  }

  /** `sorted(xs, reverse=True)`: an insertion sort into descending order. */
  function SortDesc(xs: seq<real>): (r: seq<real>)
    ensures |r| == |xs|
    ensures SortedDesc(r)
    ensures multiset(r) == multiset(xs)
    decreases |xs|
  {
    if xs == [] then []
    else
      assert xs == xs[..|xs| - 1] + [xs[|xs| - 1]];
      var sorted := SortDesc(xs[..|xs| - 1]);
      InsertDescSorted(xs[|xs| - 1], sorted);
      InsertDesc(xs[|xs| - 1], sorted)
  }

  function Min(a: int, b: int): int
  {
    if a <= b then a else b
  }

  /** `sorted(xs, reverse=True)[:3]`. */
  function TopThree(xs: seq<real>): (r: seq<real>)
  {
    var s := SortDesc(xs);
    s[..Min(3, |s|)]
  }

  /** The top three are at most three values of the list, in descending
      order, and no value left out exceeds any value kept. */
  lemma TopThreeSpec(xs: seq<real>)
    ensures var r := TopThree(xs);
            |r| == Min(3, |xs|)
            && SortedDesc(r)
            && multiset(r) <= multiset(xs)
            && forall y, i :: y in multiset(xs) - multiset(r) && 0 <= i < |r| ==> y <= r[i]
  {
    var s := SortDesc(xs);
    var k := Min(3, |s|);
    PrefixSplit(s, k);
  }

  /** Splitting a descending list after `k` elements: the head is a
      sub-multiset and bounds everything in the tail. */
  lemma PrefixSplit(s: seq<real>, k: nat)
    requires SortedDesc(s) && k <= |s|
    ensures multiset(s[..k]) <= multiset(s)
    ensures multiset(s) - multiset(s[..k]) == multiset(s[k..])
    ensures forall y, i :: y in multiset(s) - multiset(s[..k]) && 0 <= i < k ==> y <= s[i]
  {
    assert s == s[..k] + s[k..];
    assert multiset(s) == multiset(s[..k]) + multiset(s[k..]);
    forall y, i | y in multiset(s) - multiset(s[..k]) && 0 <= i < k
      ensures y <= s[i]
    {
      assert y in multiset(s[k..]);
      var m :| 0 <= m < |s[k..]| && s[k..][m] == y;
      assert s[k + m] == y;
    }
  }

  /** Values that are all at least `lo` keep a mean of the top three that is
      at least `lo` (or 0 when there are none). */
  lemma TopThreeMeanLower(xs: seq<real>, lo: real)
    requires forall i :: 0 <= i < |xs| ==> lo <= xs[i]
    ensures xs != [] ==> lo <= Mean(TopThree(xs))
    ensures xs == [] ==> Mean(TopThree(xs)) == 0.0
  {
    var r := TopThree(xs);
    TopThreeSpec(xs);
    if xs != [] {
      forall i | 0 <= i < |r| ensures lo <= r[i] {
        assert r[i] in multiset(r);
        assert r[i] in multiset(xs);
        var m :| 0 <= m < |xs| && xs[m] == r[i];
      }
      var hi := r[0];
      forall i | 0 <= i < |r| ensures r[i] <= hi {
        if i > 0 {
          assert SortedDesc(r);
        }
      }
      MeanBounds(r, lo, hi);
    }
  }
}
