/** Percentiles of unsorted values, as the library functions of the station and of the network compute them. */
module Medians {
  import opened Basics
  import S = Sorting

  function Blend(a: real, b: real, f: real): real { a + f * (b - a) }

  /** The middle of a sorted sequence, interpolating between its two central values. */
  function Middle(s: seq<real>): real
    requires s != []
  {
    var r := (|s| - 1) as real / 2.0;
    var lo, hi := r.Floor, -((-r).Floor);
    assert 0 <= lo <= hi < |s|;
    Blend(s[lo], s[hi], r - lo as real)
  }

  /** The 50th percentile. */
  function Median(xs: seq<real>): real
    requires xs != []
  {
    Middle(S.Sort(xs, S.AtMost))
  }

  lemma MiddleBounds(s: seq<real>, lo: real, hi: real)
    requires s != [] && S.SortedBy(s, S.AtMost) && forall i :: 0 <= i < |s| ==> lo <= s[i] <= hi
    ensures lo <= Middle(s) <= hi
  {
    var r := (|s| - 1) as real / 2.0;
    var a, b := r.Floor, -((-r).Floor);
    assert 0 <= a <= b < |s|;
    if a < b { assert S.AtMost(s[a], s[b]); }
    BlendBounds(s[a], s[b], r - a as real);
    hide Blend;
  }

  lemma BlendBounds(a: real, b: real, f: real)
    requires 0.0 <= f < 1.0 && a <= b
    ensures a <= Blend(a, b, f) <= b
  {
    var d, g := b - a, 1.0 - f;
    ProductNotNegative(f, d);
    ProductNotNegative(g, d);
    assert g * d == d - f * d;
  }

  /** The median lies between the extremes. */
  lemma MedianBounds(xs: seq<real>, lo: real, hi: real)
    requires xs != [] && forall x :: x in xs ==> lo <= x <= hi
    ensures lo <= Median(xs) <= hi
  {
    hide S.Sort, Middle;
    var s := S.Sort(xs, S.AtMost);
    S.SortSorted(xs, S.AtMost);
    forall i | 0 <= i < |s| ensures lo <= s[i] <= hi {
      assert s[i] in multiset(s);
      assert s[i] in xs;
    }
    MiddleBounds(s, lo, hi);
  }

  lemma MedianOfOne(x: real)
    ensures Median([x]) == x
  {
    MedianBounds([x], x, x);
  }

  /** The median of two is half-way between them. */
  lemma MedianOfTwo(a: real, b: real)
    ensures Median([a, b]) == (a + b) / 2.0
  {
    hide S.Sort, Middle;
    var lo, hi := if a <= b then a else b, if a <= b then b else a;
    assert multiset([a, b]) == multiset([lo, hi]);
    MedianPermutation([a, b], [lo, hi]);
    MiddleOfTwo(lo, hi);
    SortedPair(lo, hi);
  }

  lemma MiddleOfTwo(lo: real, hi: real)
    ensures Middle([lo, hi]) == (lo + hi) / 2.0
  {
    assert (0.5).Floor == 0 && (-0.5).Floor == -1;
  }

  lemma SortedPair(lo: real, hi: real)
    requires lo <= hi
    ensures S.Sort([lo, hi], S.AtMost) == [lo, hi]
  {
    var s := S.Sort([lo, hi], S.AtMost);
    S.SortSorted([lo, hi], S.AtMost);
    hide S.Sort;
    S.SortedUnique(s, [lo, hi]);
  }

  /** The median does not depend on the order of its inputs. */
  lemma MedianPermutation(xs: seq<real>, ys: seq<real>)
    requires xs != [] && multiset(xs) == multiset(ys)
    ensures ys != [] && Median(xs) == Median(ys)
  {
    hide S.Sort, Middle;
    assert |multiset(ys)| == |ys| && |multiset(xs)| == |xs|;
    S.SortSorted(xs, S.AtMost);
    S.SortSorted(ys, S.AtMost);
    S.SortedUnique(S.Sort(xs, S.AtMost), S.Sort(ys, S.AtMost));
  }
}
