/** A stable insertion sort standing for the library sorts, and sums that do not depend on order. */
module Sorting {

  ghost predicate TotalPreorder<T(!new)>(le: (T, T) -> bool) {
    && (forall x, y :: le(x, y) || le(y, x))
    && (forall x, y, z :: le(x, y) && le(y, z) ==> le(x, z))
  }

  ghost predicate SortedBy<T>(s: seq<T>, le: (T, T) -> bool) {
    forall i, j :: 0 <= i < j < |s| ==> le(s[i], s[j])
  }

  /** Puts x behind every element that may stand before it. */
  function Insert<T>(s: seq<T>, x: T, le: (T, T) -> bool): (r: seq<T>)
    ensures |r| == |s| + 1
    ensures multiset(r) == multiset(s) + multiset{x}
  {
    if s == [] then [x]
    else if le(s[|s| - 1], x) then s + [x]
    else
      assert s == s[..|s| - 1] + [s[|s| - 1]];
      Insert(s[..|s| - 1], x, le) + [s[|s| - 1]]
  }

  function Sort<T>(s: seq<T>, le: (T, T) -> bool): (r: seq<T>)
    ensures |r| == |s|
    ensures multiset(r) == multiset(s)
  {
    if s == [] then []
    else
      assert s == s[..|s| - 1] + [s[|s| - 1]];
      Insert(Sort(s[..|s| - 1], le), s[|s| - 1], le)
  }

  lemma {:induction false} InsertSorted<T(!new)>(s: seq<T>, x: T, le: (T, T) -> bool)
    requires TotalPreorder(le) && SortedBy(s, le)
    ensures SortedBy(Insert(s, x, le), le)
  {
    if s != [] && !le(s[|s| - 1], x) {
      var y, t := s[|s| - 1], s[..|s| - 1];
      InsertSorted(t, x, le);
      var r := Insert(t, x, le);
      forall i | 0 <= i < |r| ensures le(r[i], y) {
        assert r[i] in multiset(r);
        assert r[i] in multiset(t) || r[i] == x;
      }
    }
  }

  lemma {:induction false} SortSorted<T(!new)>(s: seq<T>, le: (T, T) -> bool)
    requires TotalPreorder(le)
    ensures SortedBy(Sort(s, le), le)
  {
    if s != [] {
      SortSorted(s[..|s| - 1], le);
      InsertSorted(Sort(s[..|s| - 1], le), s[|s| - 1], le);
    }
  }

  function Sum<T>(s: seq<T>, f: T -> int): int {
    if s == [] then 0 else Sum(s[..|s| - 1], f) + f(s[|s| - 1])
  }

  lemma {:induction false} SumConcat<T>(a: seq<T>, b: seq<T>, f: T -> int)
    ensures Sum(a + b, f) == Sum(a, f) + Sum(b, f)
  {
    if b == [] {
      assert a + b == a;
    } else {
      assert (a + b)[..|a + b| - 1] == a + b[..|b| - 1];
      SumConcat(a, b[..|b| - 1], f);
    }
  }

  lemma WithoutOne<T>(s: seq<T>, k: nat)
    requires k < |s|
    ensures multiset(s[..k] + s[k + 1..]) == multiset(s) - multiset{s[k]}
  {
    assert s == s[..k] + [s[k]] + s[k + 1..];
  }

  lemma WithoutLast<T>(s: seq<T>)
    requires s != []
    ensures multiset(s[..|s| - 1]) == multiset(s) - multiset{s[|s| - 1]}
  {
    assert s == s[..|s| - 1] + [s[|s| - 1]];
  }

  /** A sum over a sequence depends only on its multiset. */
  lemma {:induction false} SumPermutation<T>(a: seq<T>, b: seq<T>, f: T -> int)
    requires multiset(a) == multiset(b)
    ensures Sum(a, f) == Sum(b, f)
  {
    if a == [] {
      assert |multiset(b)| == 0;
    } else {
      var x := a[|a| - 1];
      assert x in multiset(b);
      var k :| 0 <= k < |b| && b[k] == x;
      var c := b[..k] + b[k + 1..];
      WithoutLast(a);
      WithoutOne(b, k);
      assert b == b[..k] + [x] + b[k + 1..];
      SumPermutation(a[..|a| - 1], c, f);
      SumConcat(b[..k], b[k + 1..], f);
      SumConcat(b[..k] + [x], b[k + 1..], f);
      assert (b[..k] + [x])[..k] == b[..k];
    }
  }

  function Map<A, B>(f: A -> B, s: seq<A>): (r: seq<B>)
    ensures |r| == |s|
  {
    if s == [] then [] else Map(f, s[..|s| - 1]) + [f(s[|s| - 1])]
  }

  lemma {:induction false} MapConcat<A, B>(f: A -> B, a: seq<A>, b: seq<A>)
    ensures Map(f, a + b) == Map(f, a) + Map(f, b)
  {
    if b == [] {
      assert a + b == a;
    } else {
      assert (a + b)[..|a + b| - 1] == a + b[..|b| - 1];
      MapConcat(f, a, b[..|b| - 1]);
    }
  }

  lemma MapAppend<A, B>(f: A -> B, s: seq<A>, x: A)
    ensures Map(f, s + [x]) == Map(f, s) + [f(x)]
  {
    assert (s + [x])[..|s|] == s;
  }

  lemma MapAround<A, B>(f: A -> B, p: seq<A>, x: A, q: seq<A>)
    ensures Map(f, p + [x] + q) == Map(f, p) + [f(x)] + Map(f, q)
  {
    hide Map;
    MapConcat(f, p + [x], q);
    MapAppend(f, p, x);
  }

  lemma MapWithout<A, B>(f: A -> B, p: seq<A>, x: A, q: seq<A>)
    ensures multiset(Map(f, p + [x] + q)) == multiset(Map(f, p + q)) + multiset{f(x)}
  {
    hide *;
    MapAround(f, p, x, q);
    MapConcat(f, p, q);
    OneBetween(Map(f, p), f(x), Map(f, q));
  }

  lemma Around<A>(s: seq<A>, k: nat)
    requires k < |s|
    ensures s == s[..k] + [s[k]] + s[k + 1..]
  {
  }

  lemma MapSplit<A, B>(f: A -> B, s: seq<A>, k: nat)
    requires k < |s|
    ensures multiset(Map(f, s)) == multiset(Map(f, s[..k] + s[k + 1..])) + multiset{f(s[k])}
  {
    hide *;
    Around(s, k);
    MapWithout(f, s[..k], s[k], s[k + 1..]);
  }

  lemma OneBetween<B>(p: seq<B>, x: B, q: seq<B>)
    ensures multiset(p + [x] + q) == multiset(p + q) + multiset{x}
  {
  }

  /** Rearranging the arguments rearranges the values. */
  lemma {:induction false} MapPermutation<A, B>(f: A -> B, a: seq<A>, b: seq<A>)
    requires multiset(a) == multiset(b)
    ensures multiset(Map(f, a)) == multiset(Map(f, b))
  {
    if a == [] {
      assert |multiset(b)| == 0;
    } else {
      var n := |a| - 1;
      assert a[n] in multiset(b);
      var k :| 0 <= k < |b| && b[k] == a[n];
      WithoutLast(a);
      WithoutOne(b, k);
      MapPermutation(f, a[..n], b[..k] + b[k + 1..]);
      MapSplit(f, b, k);
      hide Map;
      MapSplit(f, a, n);
      assert a[..n] + a[n + 1..] == a[..n];
    }
  }

  predicate AtMost(a: real, b: real) { a <= b }

  lemma LastIsGreatest(s: seq<real>)
    requires s != [] && SortedBy(s, AtMost)
    ensures forall x :: x in s ==> x <= s[|s| - 1]
    ensures SortedBy(s[..|s| - 1], AtMost)
  {
    forall x | x in s ensures x <= s[|s| - 1] {
      var i :| 0 <= i < |s| && s[i] == x;
      assert i < |s| - 1 ==> AtMost(s[i], s[|s| - 1]);
    }
  }

  lemma SameLast(a: seq<real>, b: seq<real>)
    requires SortedBy(a, AtMost) && SortedBy(b, AtMost)
    requires multiset(a) == multiset(b) && a != []
    ensures |b| == |a| && a[|a| - 1] == b[|a| - 1]
    ensures multiset(a[..|a| - 1]) == multiset(b[..|a| - 1])
    ensures SortedBy(a[..|a| - 1], AtMost) && SortedBy(b[..|a| - 1], AtMost)
  {
    assert |multiset(a)| == |a| && |multiset(b)| == |b|;
    LastIsGreatest(a);
    LastIsGreatest(b);
    var x, y := a[|a| - 1], b[|a| - 1];
    assert x in multiset(b) && y in multiset(a);
    assert x in b && y in a;
    WithoutLast(a);
    WithoutLast(b);
  }

  /** Two sorted arrangements of the same reals are the same sequence. */
  lemma {:induction false} SortedUnique(a: seq<real>, b: seq<real>)
    requires SortedBy(a, AtMost) && SortedBy(b, AtMost)
    requires multiset(a) == multiset(b)
    ensures a == b
  {
    if a == [] {
      assert |multiset(b)| == |b|;
    } else {
      hide SortedBy, AtMost;
      SameLast(a, b);
      SortedUnique(a[..|a| - 1], b[..|a| - 1]);
    }
  }
}
