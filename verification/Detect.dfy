/** The trigger's running averages and the onset picker. */
module Detect {
  import F = Filter

  // ---------------------------------------------------------------------
  // STA/LTA
  // ---------------------------------------------------------------------

  datatype Averages = Averages(sta: real, lta: real, frozen: bool, n: nat)

  function Follow(s: Averages, e: real, nSta: real, nLta: real): Averages
    requires nSta != 0.0 && nLta != 0.0
  {
    var sta0, lta0 := if s.n == 0 then e else s.sta, if s.n == 0 then e else s.lta;
    s.(n := s.n + 1,
       sta := sta0 + (e - sta0) / nSta,
       lta := if s.frozen then lta0 else lta0 + (e - lta0) / nLta)
  }

  predicate Warm(s: Averages, nLta: real) { s.n as real >= nLta }

  function Ratio(s: Averages, nLta: real): real { if !Warm(s, nLta) || s.lta <= 0.0 then 0.0 else s.sta / s.lta }

  /** The ratio series of a run of energies. */
  function Ratios(s: Averages, energies: seq<real>, nSta: real, nLta: real): seq<real>
    requires nSta != 0.0 && nLta != 0.0
    decreases |energies|
  {
    if energies == [] then []
    else
      var t := Follow(s, energies[0], nSta, nLta);
      [Ratio(t, nLta)] + Ratios(t, energies[1..], nSta, nLta)
  }

  /** The averages lie in the range, unless there is no sample yet. */
  predicate Within(s: Averages, lo: real, hi: real) { s.n == 0 || (lo <= s.sta <= hi && lo <= s.lta <= hi) }

  /** The averages after a run of energies. */
  function FollowAll(s: Averages, energies: seq<real>, nSta: real, nLta: real): Averages
    requires nSta != 0.0 && nLta != 0.0
  {
    if energies == [] then s
    else Follow(FollowAll(s, energies[..|energies| - 1], nSta, nLta), energies[|energies| - 1], nSta, nLta)
  }

  /** A step of one n-th towards e stays between a and e. */
  lemma StepBetween(a: real, e: real, n: real, lo: real, hi: real)
    requires n >= 1.0 && lo <= a <= hi && lo <= e <= hi
    ensures lo <= a + (e - a) / n <= hi
  {
    var f, d := 1.0 / n, e - a;
    assert f * n == 1.0;
    assert 0.0 < f <= 1.0;
    assert d / n == f * d;
    Portion(f, d);
    Portion(f, -d);
    assert f * -d == -(f * d);
  }

  lemma Portion(f: real, d: real)
    requires 0.0 < f <= 1.0
    ensures d >= 0.0 ==> 0.0 <= f * d <= d
  {
    if d >= 0.0 {
      var g := 1.0 - f;
      assert f * d >= 0.0 && g * d >= 0.0;
      assert g * d == d - f * d;
    }
  }

  lemma FollowWithin(s: Averages, e: real, nSta: real, nLta: real, lo: real, hi: real)
    requires nSta >= 1.0 && nLta >= 1.0 && Within(s, lo, hi) && lo <= e <= hi
    ensures Within(Follow(s, e, nSta, nLta), lo, hi)
  {
    StepBetween(if s.n == 0 then e else s.sta, e, nSta, lo, hi);
    StepBetween(if s.n == 0 then e else s.lta, e, nLta, lo, hi);
  }

  lemma FollowFrozen(s: Averages, e: real, nSta: real, nLta: real)
    requires nSta != 0.0 && nLta != 0.0
    ensures var t := Follow(s, e, nSta, nLta);
            t.n == s.n + 1 && t.frozen == s.frozen && (s.frozen && s.n > 0 ==> t.lta == s.lta)
  {
  }

  /** Over windows of at least one sample, both averages stay within the range of the energies, frozen or not. */
  lemma {:induction false} AveragesInRange(s: Averages, energies: seq<real>, nSta: real, nLta: real, lo: real, hi: real)
    requires nSta >= 1.0 && nLta >= 1.0 && Within(s, lo, hi)
    requires forall i :: 0 <= i < |energies| ==> lo <= energies[i] <= hi
    ensures var t := FollowAll(s, energies, nSta, nLta);
            Within(t, lo, hi) && t.n == s.n + |energies| && t.frozen == s.frozen
            && (s.frozen && s.n > 0 ==> t.lta == s.lta)
  {
    hide Follow, Within;
    if energies != [] {
      var rest, e := energies[..|energies| - 1], energies[|energies| - 1];
      AveragesInRange(s, rest, nSta, nLta, lo, hi);
      FollowWithin(FollowAll(s, rest, nSta, nLta), e, nSta, nLta, lo, hi);
      FollowFrozen(FollowAll(s, rest, nSta, nLta), e, nSta, nLta);
    }
  }

  /** The recursive short- and long-term averages of signal energy. */
  class StaLta {
    const nSta: real
    const nLta: real
    var sta: real
    var lta: real
    var frozen: bool
    var n: nat

    ghost function State(): Averages reads this { Averages(sta, lta, frozen, n) }

    constructor (staSec: real, ltaSec: real, fs: real)
      ensures nSta == staSec * fs && nLta == ltaSec * fs && State() == Averages(0.0, 0.0, false, 0)
    {
      nSta, nLta := staSec * fs, ltaSec * fs;
      sta, lta, frozen, n := 0.0, 0.0, false, 0;
    }

    method Update(e: real) returns (ratio: real)
      requires nSta != 0.0 && nLta != 0.0
      modifies this
      ensures State() == Follow(old(State()), e, nSta, nLta) && ratio == Ratio(State(), nLta)
    {
      n := n + 1;
      if n == 1 {
        sta, lta := e, e;
      }
      sta := sta + (e - sta) / nSta;
      if !frozen {
        lta := lta + (e - lta) / nLta;
      }
      if !(n as real >= nLta) || lta <= 0.0 {
        return 0.0;
      }
      return sta / lta;
    }
  }

  /** Orientation invariance of the trigger: a turned phone sees the same STA/LTA series. */
  lemma RatioInvariance(m: F.Rotation, proto: seq<F.Biquad>, samples: seq<F.Vec3>, s: Averages, nSta: real, nLta: real)
    requires F.Orthogonal(m) && F.AllDc(F.CascadeClone(proto)) && samples != [] && nSta != 0.0 && nLta != 0.0
    ensures Ratios(s, F.Energies(F.BankStart(proto, F.Turn(m, samples[0])), F.TurnAll(m, samples)), nSta, nLta)
         == Ratios(s, F.Energies(F.BankStart(proto, samples[0]), samples), nSta, nLta)
  {
    F.OrientationInvariance(m, proto, samples);
  }

  // ---------------------------------------------------------------------
  // AIC onset
  // ---------------------------------------------------------------------

  function Total(x: seq<real>): real {
    if x == [] then 0.0 else Total(x[..|x| - 1]) + x[|x| - 1]
  }

  function Square(v: real): (r: real)
    ensures r >= 0.0
  {
    v * v
  }

  function TotalSquares(x: seq<real>): real {
    if x == [] then 0.0 else TotalSquares(x[..|x| - 1]) + Square(x[|x| - 1])
  }

  /** The sum of squared deviations from c. */
  function Deviation(x: seq<real>, c: real): (r: real)
    ensures r >= 0.0
  {
    if x == [] then 0.0
    else Deviation(x[..|x| - 1], c) + Square(x[|x| - 1] - c)
  }

  /** q - 2ct + kc^2 */
  function Expanded(q: real, t: real, k: real, c: real): real { q - 2.0 * c * t + k * (c * c) }

  lemma ExpandStep(q: real, t: real, k: real, v: real, c: real)
    ensures Expanded(q, t, k, c) + Square(v - c) == Expanded(q + Square(v), t + v, k + 1.0, c)
    ensures Expanded(0.0, 0.0, 0.0, c) == 0.0
  {
  }

  lemma {:induction false} DeviationExpand(x: seq<real>, c: real)
    ensures Deviation(x, c) == Expanded(TotalSquares(x), Total(x), |x| as real, c)
  {
    hide Expanded, Square;
    if x == [] {
      ExpandStep(0.0, 0.0, 0.0, 0.0, c);
    } else {
      var n := |x| - 1;
      DeviationExpand(x[..n], c);
      ExpandStep(TotalSquares(x[..n]), Total(x[..n]), n as real, x[n], c);
      assert |x| as real == n as real + 1.0;
    }
  }

  function Mean(x: seq<real>): real
    requires x != []
  {
    Total(x) / |x| as real
  }

  const FLOOR := 0.00000000000000000001

  /** The variance about the mean, floored at 1e-20. */
  function Variance(x: seq<real>): (r: real)
    requires x != []
    ensures r >= FLOOR
  {
    var v := Deviation(x, Mean(x)) / |x| as real;
    if v < FLOOR then FLOOR else v
  }

  /** Maeda's AIC of splitting x at k. */
  function Aic(x: seq<real>, k: nat, log: real -> real): real
    requires 0 < k < |x|
  {
    k as real * log(Variance(x[..k])) + (|x| - k - 1) as real * log(Variance(x[k..]))
  }

  lemma ExpandedAtMean(q: real, t: real, m: real)
    requires m > 0.0
    ensures Expanded(q, t, m, t / m) / m == q / m - (t / m) * (t / m)
  {
    var c := t / m;
    var b := c * c;
    assert t == c * m;
    assert 2.0 * c * (c * m) == 2.0 * (b * m);
    assert Expanded(q, t, m, c) == q - b * m;
    SubtractMultiple(q, b, m);
  }

  lemma SubtractMultiple(q: real, b: real, m: real)
    requires m > 0.0
    ensures (q - b * m) / m == q / m - b
  {
    assert (q / m - b) * m == (q / m) * m - b * m;
  }

  /** The prefix-sum formula of the picker is the variance of the segment. */
  lemma PrefixVariance(x: seq<real>)
    requires x != []
    ensures var m := |x| as real;
            TotalSquares(x) / m - (Total(x) / m) * (Total(x) / m) == Deviation(x, Mean(x)) / m
  {
    hide Expanded;
    DeviationExpand(x, Mean(x));
    ExpandedAtMean(TotalSquares(x), Total(x), |x| as real);
  }

  lemma {:induction false} TotalsSplit(x: seq<real>, a: nat, b: nat)
    requires a <= b <= |x|
    ensures Total(x[..b]) == Total(x[..a]) + Total(x[a..b])
    ensures TotalSquares(x[..b]) == TotalSquares(x[..a]) + TotalSquares(x[a..b])
  {
    if a == b {
      assert x[a..b] == [];
    } else {
      TotalsSplit(x, a, b - 1);
      assert x[..b][..b - 1] == x[..b - 1] && x[a..b][..b - a - 1] == x[a..b - 1];
    }
  }

  ghost predicate PrefixesOf(x: seq<real>, s1: array<real>, s2: array<real>)
    reads s1, s2
  {
    s1.Length == s2.Length == |x| + 1
    && forall i :: 0 <= i <= |x| ==> s1[i] == Total(x[..i]) && s2[i] == TotalSquares(x[..i])
  }

  method PrefixSums(x: seq<real>) returns (s1: array<real>, s2: array<real>)
    ensures fresh(s1) && fresh(s2) && PrefixesOf(x, s1, s2)
  {
    s1, s2 := new real[|x| + 1](_ => 0.0), new real[|x| + 1](_ => 0.0);
    assert x[..0] == [];
    for i := 0 to |x|
      invariant forall j :: 0 <= j <= i ==> s1[j] == Total(x[..j]) && s2[j] == TotalSquares(x[..j])
    {
      assert x[..i + 1][..i] == x[..i];
      s1[i + 1] := s1[i] + x[i];
      s2[i + 1] := s2[i] + x[i] * x[i];
    }
  }

  method SegmentVariance(x: seq<real>, s1: array<real>, s2: array<real>, a: nat, b: nat) returns (v: real)
    requires a < b <= |x| && PrefixesOf(x, s1, s2)
    ensures v == Variance(x[a..b])
  {
    hide Total, TotalSquares, Deviation, Mean;
    TotalsSplit(x, a, b);
    PrefixVariance(x[a..b]);
    var m := (b - a) as real;
    var mean := (s1[b] - s1[a]) / m;
    v := (s2[b] - s2[a]) / m - mean * mean;
    if v < FLOOR {
      v := FLOOR;
    }
  }

  method AicAt(x: seq<real>, s1: array<real>, s2: array<real>, k: nat, log: real -> real) returns (a: real)
    requires 0 < k < |x| && PrefixesOf(x, s1, s2)
    ensures a == Aic(x, k, log)
  {
    hide Variance, PrefixesOf;
    var left := SegmentVariance(x, s1, s2, 0, k);
    var right := SegmentVariance(x, s1, s2, k, |x|);
    assert x[0..k] == x[..k] && x[k..|x|] == x[k..];
    a := k as real * log(left) + (|x| - k - 1) as real * log(right);
  }

  /** The first of the splits 3..k-1 that minimises the AIC, or -1 if there is none. */
  function BestSplit(x: seq<real>, k: nat, log: real -> real): (best: int)
    requires k < |x|
    ensures if k <= 3 then best == -1 else 3 <= best < k
  {
    if k <= 3 then -1
    else
      var b := BestSplit(x, k - 1, log);
      if b == -1 || Aic(x, k - 1, log) < Aic(x, b, log) then k - 1 else b
  }

  /** The onset picker: the best split over 3 <= k < n - 3, or -1 for fewer than 8 samples. */
  function AicIndex(x: seq<real>, log: real -> real): int { if |x| < 8 then -1 else BestSplit(x, |x| - 3, log) }

  /** No split scores lower, and no earlier one as low. */
  lemma {:induction false} BestSplitFirst(x: seq<real>, k: nat, log: real -> real)
    requires 3 < k < |x|
    ensures var b := BestSplit(x, k, log);
            (forall j :: 3 <= j < k ==> Aic(x, b, log) <= Aic(x, j, log))
            && (forall j :: 3 <= j < b ==> Aic(x, b, log) < Aic(x, j, log))
  {
    hide Aic;
    if k > 4 { BestSplitFirst(x, k - 1, log); }
  }

  /** The first split minimising the AIC over 3 <= k < n - 3, or -1 for fewer than 8 samples. */
  method AicPick(x: seq<real>, log: real -> real) returns (best: int)
    ensures best == AicIndex(x, log)
    ensures |x| < 8 <==> best == -1
    ensures |x| >= 8 ==> 3 <= best < |x| - 3
    ensures |x| >= 8 ==> forall k :: 3 <= k < |x| - 3 ==> Aic(x, best, log) <= Aic(x, k, log)
    ensures |x| >= 8 ==> forall k :: 3 <= k < best ==> Aic(x, best, log) < Aic(x, k, log)
  {
    hide Aic, PrefixesOf;
    var n := |x|;
    if n < 8 { return -1; }
    var s1, s2 := PrefixSums(x);
    best := -1;
    var least := 0.0;
    for k := 3 to n - 3
      invariant PrefixesOf(x, s1, s2) && best == BestSplit(x, k, log)
      invariant best == -1 || least == Aic(x, best, log)
    {
      var a := AicAt(x, s1, s2, k, log);
      if best == -1 || a < least {
        least, best := a, k;
      }
    }
    BestSplitFirst(x, n - 3, log);
  }
}
