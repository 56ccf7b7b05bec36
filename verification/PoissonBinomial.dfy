/** The exact significance test: the tail of a sum of independent, unequal chances. */
module PoissonBinomial {
  import opened Basics
  import opened Sorting

  function Clamp(p: real): (r: real)
    ensures 0.0 <= r <= 1.0
    ensures 0.0 <= p <= 1.0 ==> r == p
  {
    if p < 0.0 then 0.0 else if p > 1.0 then 1.0 else p
  }

  function Mix(x: real, a: real, b: real): real { x * a + (1.0 - x) * b }

  /** P(K >= k): condition on the last trial. */
  function Tail(p: seq<real>, k: int): real
    decreases |p|
  {
    if k <= 0 then 1.0
    else if p == [] then 0.0
    else
      var x, rest := Clamp(p[|p| - 1]), p[..|p| - 1];
      Mix(x, Tail(rest, k - 1), Tail(rest, k))
  }

  /** P(K = j) */
  function Mass(p: seq<real>, j: int): real { Tail(p, j) - Tail(p, j + 1) }

  /** A weighted mean lies between its ends and follows them. */
  lemma MixBounds(x: real, a: real, b: real)
    requires 0.0 <= x <= 1.0 && b <= a
    ensures b <= Mix(x, a, b) <= a
  {
    assert Mix(x, a, b) == b + x * (a - b) == a - (1.0 - x) * (a - b);
    ProductNotNegative(x, a - b);
    ProductNotNegative(1.0 - x, a - b);
  }

  lemma MixRaise(x: real, y: real, a: real, b: real)
    requires x <= y && b <= a
    ensures Mix(x, a, b) <= Mix(y, a, b)
  {
    assert Mix(y, a, b) - Mix(x, a, b) == (y - x) * (a - b);
    ProductNotNegative(y - x, a - b);
  }

  lemma MixExchange(x: real, z: real, t0: real, t1: real, t2: real)
    ensures Mix(z, Mix(x, t2, t1), Mix(x, t1, t0)) == Mix(x, Mix(z, t2, t1), Mix(z, t1, t0))
    ensures Mix(x, 1.0, 1.0) == 1.0 && Mix(x, 0.0, 0.0) == 0.0
  {
  }

  lemma {:induction false} TailBounds(p: seq<real>, k: int)
    ensures 0.0 <= Tail(p, k) <= 1.0
    ensures Tail(p, k + 1) <= Tail(p, k)
    ensures k > |p| ==> Tail(p, k) == 0.0
    decreases |p|
  {
    hide Mix;
    if p != [] {
      var x, rest := Clamp(p[|p| - 1]), p[..|p| - 1];
      TailBounds(rest, k - 1);
      TailBounds(rest, k);
      MixBounds(x, Tail(rest, k - 1), Tail(rest, k));
      MixBounds(x, Tail(rest, k), Tail(rest, k + 1));
      MixExchange(x, x, 0.0, 0.0, 0.0);
    }
  }

  /** Any one trial can be conditioned on first. */
  lemma {:induction false} TailAt(p: seq<real>, i: nat, k: int)
    requires i < |p| && k > 0
    ensures var x, rest := Clamp(p[i]), p[..i] + p[i + 1..];
            Tail(p, k) == Mix(x, Tail(rest, k - 1), Tail(rest, k))
    decreases |p|
  {
    hide Mix, Clamp;
    var n := |p| - 1;
    var rest := p[..i] + p[i + 1..];
    if i == n {
      assert rest == p[..n];
    } else {
      var x, z, both := Clamp(p[i]), Clamp(p[n]), p[..i] + p[i + 1..n];
      assert p[..n][..i] + p[..n][i + 1..] == both;
      assert rest[..n - 1] == both && rest[n - 1] == p[n];
      TailAt(p[..n], i, k);
      if k > 1 { TailAt(p[..n], i, k - 1); }
      MixExchange(x, z, Tail(both, k), Tail(both, k - 1), Tail(both, k - 2));
      MixExchange(z, x, Tail(both, k), Tail(both, k - 1), Tail(both, k - 2));
    }
  }

  /** The tail does not depend on the order of the trials. */
  lemma {:induction false} TailPermutation(p: seq<real>, q: seq<real>, k: int)
    requires multiset(p) == multiset(q)
    ensures Tail(p, k) == Tail(q, k)
    decreases |p|
  {
    hide Mix, Clamp;
    assert |multiset(p)| == |p| && |multiset(q)| == |q|;
    if k > 0 && p != [] {
      var n := |p| - 1;
      assert p[n] in multiset(q);
      var i :| 0 <= i < |q| && q[i] == p[n];
      var r := q[..i] + q[i + 1..];
      WithoutLast(p);
      WithoutOne(q, i);
      TailPermutation(p[..n], r, k);
      TailPermutation(p[..n], r, k - 1);
      TailAt(q, i, k);
    }
  }

  /** Raising any one chance never lowers the tail. */
  lemma TailMonotone(p: seq<real>, i: nat, x: real, k: int)
    requires i < |p| && p[i] <= x
    ensures Tail(p, k) <= Tail(p[i := x], k)
  {
    hide Mix;
    if k > 0 {
      var q := p[i := x];
      var rest := p[..i] + p[i + 1..];
      assert rest == q[..i] + q[i + 1..];
      TailAt(p, i, k);
      TailAt(q, i, k);
      TailBounds(rest, k - 1);
      MixRaise(Clamp(p[i]), Clamp(x), Tail(rest, k - 1), Tail(rest, k));
    }
  }

  /** Asking for more successes never raises the tail. */
  lemma {:induction false} TailAntitone(p: seq<real>, k: int, l: int)
    requires k <= l
    ensures Tail(p, l) <= Tail(p, k)
    decreases l - k
  {
    if k < l {
      TailAntitone(p, k, l - 1);
      TailBounds(p, l - 1);
    }
  }

  function BinSum(d: seq<real>): real {
    if d == [] then 0.0 else BinSum(d[..|d| - 1]) + d[|d| - 1]
  }

  /** The truncated distribution after some trials: P(K = j) below k, and P(K >= k) in the last bin. */
  ghost predicate Bins(d: seq<real>, p: seq<real>, k: nat) {
    |d| == k + 1 && d[k] == Tail(p, k) && forall j :: 0 <= j < k ==> d[j] == Mass(p, j)
  }

  lemma {:induction false} BinsSumToOne(d: seq<real>, p: seq<real>, k: nat, m: nat)
    requires Bins(d, p, k) && m <= k
    ensures BinSum(d[..m]) == 1.0 - Tail(p, m)
    ensures m == k ==> BinSum(d) == 1.0
  {
    if m != 0 {
      BinsSumToOne(d, p, k, m - 1);
      assert d[..m][..m - 1] == d[..m - 1];
    }
    if m == k { assert d[..k + 1] == d && d[..|d| - 1] == d[..k]; }
  }

  lemma TailStep(p: seq<real>, x: real, j: int)
    ensures Tail(p + [x], j) == Mix(Clamp(x), Tail(p, j - 1), Tail(p, j))
  {
    var q := p + [x];
    assert q[..|q| - 1] == p;
    MixExchange(Clamp(x), Clamp(x), 0.0, 0.0, 0.0);
    hide Mix, Clamp;
  }

  /** A bin after one more trial of chance x, from its old value and the one below it. */
  function Shift(bin: real, below: real, x: real): real { bin * (1.0 - x) + below * x }

  /** The last bin only gains. */
  function Gain(bin: real, below: real, x: real): real { bin + below * x }

  lemma MixDifference(x: real, a: real, b: real, c: real)
    ensures Mix(x, a, b) - Mix(x, b, c) == Shift(b - c, a - b, x)
    ensures Mix(x, b, c) == Gain(c, b - c, x)
  {
  }

  /** One more trial moves x of every bin one step up. */
  lemma MassStep(p: seq<real>, x: real, j: nat)
    ensures Mass(p + [x], j) == Shift(Mass(p, j), if j == 0 then 0.0 else Mass(p, j - 1), Clamp(x))
    ensures Tail(p + [x], j + 1) == Gain(Tail(p, j + 1), Mass(p, j), Clamp(x))
  {
    hide Shift, Gain, Mix;
    TailStep(p, x, j);
    TailStep(p, x, j + 1);
    MixDifference(Clamp(x), Tail(p, j - 1), Tail(p, j), Tail(p, j + 1));
    assert j == 0 ==> Tail(p, j - 1) - Tail(p, j) == 0.0;
    hide Tail, Clamp;
  }

  /** One trial, in place: the last bin first, then downwards, so each bin still reads its old neighbour. */
  method AddTrial(dist: array<real>, k: nat, x: real, ghost p: seq<real>)
    requires k >= 1 && Bins(dist[..], p, k)
    modifies dist
    ensures Bins(dist[..], p + [x], k)
  {
    var pi := x;
    if pi < 0.0 {
      pi := 0.0;
    } else if pi > 1.0 {
      pi := 1.0;
    }
    assert pi == Clamp(x);
    hide Tail, Mass, Clamp, Shift, Gain;
    ghost var was := dist[..];
    MassStep(p, x, k - 1);
    dist[k] := Gain(dist[k], dist[k - 1], pi);
    var j := k - 1;
    while j >= 1
      invariant 0 <= j < k
      invariant forall i :: 0 <= i <= j ==> dist[i] == was[i]
      invariant forall i :: j < i < k ==> dist[i] == Mass(p + [x], i)
      invariant dist[k] == Tail(p + [x], k)
    {
      MassStep(p, x, j);
      dist[j] := Shift(dist[j], dist[j - 1], pi);
      j := j - 1;
    }
    MassStep(p, x, 0);
    dist[0] := Shift(dist[0], 0.0, pi);
  }

  /** The in-place dynamic programme computes the exact tail; after every trial its bins sum to one. */
  method PoissonBinomialTail(p: seq<real>, k: int) returns (r: real)
    ensures r == Tail(p, k)
    ensures 0.0 <= r <= 1.0
  {
    hide Clamp, Mix;
    TailBounds(p, k);
    if k <= 0 { return 1.0; }
    if k > |p| { return 0.0; }
    var dist := new real[k + 1](_ => 0.0);
    dist[0] := 1.0;
    BinsSumToOne(dist[..], [], k, k);
    hide Mass, BinSum;
    for i := 0 to |p|
      invariant Bins(dist[..], p[..i], k)
      invariant BinSum(dist[..]) == 1.0
    {
      AddTrial(dist, k, p[i], p[..i]);
      assert p[..i + 1] == p[..i] + [p[i]];
      BinsSumToOne(dist[..], p[..i + 1], k, k);
    }
    assert p[..|p|] == p;
    return dist[k];
  }
}
