/**
 Association of two votes standing at one place. It shows what the general theory leaves open: that solutions exist,
 that a unit's P and S votes make one cluster, and exactly when re-reading a vote leaves cached solutions right.
 */
module Pairs {
  import opened Basics
  import opened Decimals
  import opened Votes
  import opened Selection
  import A = Association
  import L = Locator
  import Linking
  import T = TravelTimes

  // ---------------------------------------------------------------------
  // Every pair has a location
  // ---------------------------------------------------------------------

  /** A score is at most the number of consistent observations. */
  lemma {:induction false} ScoreBound(c: T.Config, x: real, y: real, obs: seq<T.Obs>, t: real)
    requires T.ValidConfig(c) && T.Tolerant(obs)
    ensures |L.Picks(c, x, y, obs, t)| <= |obs| && L.Score(c, x, y, obs, t) <= |L.Picks(c, x, y, obs, t)| as real
  {
    hide L.Kernel, T.Hypo;
    if obs != [] {
      var o := obs[|obs| - 1];
      assert o in obs;
      ScoreBound(c, x, y, obs[..|obs| - 1], t);
      KernelAtMostOne(L.ChosenOrigin(c, x, y, o, t) - t, o.tau);
    }
  }

  lemma KernelAtMostOne(r: real, tau: real)
    requires tau > 0.0
    ensures L.Kernel(r, tau) <= 1.0
    ensures r == 0.0 ==> L.Kernel(r, tau) == 1.0
  {
    var q := r / tau;
    assert q * q >= 0.0;
  }

  lemma CountBound(c: T.Config, x: real, y: real, obs: seq<T.Obs>, t: real)
    requires T.ValidConfig(c) && T.Tolerant(obs)
    ensures |T.Consistents(c, x, y, obs, t)| <= |obs|
    ensures L.Score(c, x, y, obs, t) <= |T.Consistents(c, x, y, obs, t)| as real
  {
    ScoreBound(c, x, y, obs, t);
    L.PickCount(c, x, y, obs, t);
  }

  /** Some origin time is consistent with as many observations as any. */
  lemma BestTime(c: T.Config, x: real, y: real, obs: seq<T.Obs>, t: real) returns (at: real)
    requires T.ValidConfig(c) && T.Tolerant(obs)
    ensures L.BestCovered(c, obs, x, y, at)
    decreases |obs| - |T.Consistents(c, x, y, obs, t)|
  {
    hide T.Consistents, L.Score;
    CountBound(c, x, y, obs, t);
    if u :| |T.Consistents(c, x, y, obs, u)| > |T.Consistents(c, x, y, obs, t)| {
      CountBound(c, x, y, obs, u);
      at := BestTime(c, x, y, obs, u);
    } else {
      at := t;
    }
  }

  lemma NodeExists(c: T.Config, x: real, y: real, obs: seq<T.Obs>) returns (d: L.Node)
    requires T.ValidConfig(c) && T.Tolerant(obs) && obs != []
    ensures d.x == x && d.y == y && L.Evaluated(c, obs, d) && d.score >= 0.0
  {
    hide T.Consistents, T.Consistent, T.POrigin, L.Score, L.Picks, L.Moment, L.WeightSum, L.SquareSum;
    var at := BestTime(c, x, y, obs, 0.0);
    L.SomethingConsistent(c, x, y, obs);
    L.RefinementImproves(c, x, y, obs, at);
    var ps := L.Picks(c, x, y, obs, at);
    var t0 := L.Moment(ps) / L.WeightSum(ps);
    var n := |T.Consistents(c, x, y, obs, t0)|;
    var rms := c.sqrt(L.SquareSum(L.Picks(c, x, y, obs, t0), t0) / n as real);
    d := L.Node(x, y, t0, rms, L.Score(c, x, y, obs, t0), n);
    assert L.RefinesCover(c, obs, d, at);
    L.ScoreNonNegative(c, x, y, obs, t0);
  }

  /** A grid can be searched. */
  lemma GridExists(c: T.Config, obs: seq<T.Obs>, ox: real, oy: real, half: real, nodes0: seq<L.Node>, best0: L.Node)
    returns (nodes: seq<L.Node>, best: L.Node)
    requires T.ValidConfig(c) && T.Tolerant(obs) && obs != [] && L.Searched(c, obs, nodes0, best0)
    ensures nodes0 <= nodes && L.Searched(c, obs, nodes, best) && L.GridNodes(c, nodes[|nodes0|..], ox, oy, half)
  {
    hide L.Searched, L.Covers, L.Evaluated;
    var g, step, added := c.gridNodes, L.StepOf(c, half), [];
    nodes, best := nodes0, best0;
    L.CoversRows(added, g, ox, oy, half, step, 0);
    for i := 0 to g
      invariant nodes == nodes0 + added && |added| == i * g
      invariant L.Searched(c, obs, nodes, best) && L.Covers(added, g, ox, oy, half, step, i, 0)
    {
      for j := 0 to g
        invariant nodes == nodes0 + added && |added| == i * g + j
        invariant L.Searched(c, obs, nodes, best) && L.Covers(added, g, ox, oy, half, step, i, j)
      {
        var d := NodeExists(c, L.GridAt(ox, half, step, i), L.GridAt(oy, half, step, j), obs);
        L.AppendNode(c, obs, nodes, best, d);
        L.AppendCell(added, g, ox, oy, half, step, i, j, d);
        nodes, added, best := nodes + [d], added + [d], if d.score > best.score then d else best;
      }
      L.CoversRows(added, g, ox, oy, half, step, i + 1);
    }
    assert nodes[|nodes0|..] == added;
  }

  /** Two observations from one place. */
  predicate Twin(obs: seq<T.Obs>) {
    |obs| == 2 && obs[0].x == obs[1].x && obs[0].y == obs[1].y
  }

  /** How far the search around a single place reaches. */
  function HalfWidth(c: T.Config): real { Max(c.minSearch, L.Distance(c, 0.0, 0.0) + 20.0) }

  lemma TwinArea(c: T.Config, obs: seq<T.Obs>)
    requires Twin(obs)
    ensures L.AreaOf(c, obs, obs[0].x, obs[0].y, HalfWidth(c))
    ensures forall cx, cy, half :: L.AreaOf(c, obs, cx, cy, half) ==>
              cx == obs[0].x && cy == obs[0].y && half == HalfWidth(c)
  {
    hide L.Distance;
    assert L.SumX(obs[..1]) == L.SumX(obs[..1][..0]) + obs[0].x;
    assert L.SumY(obs[..1]) == L.SumY(obs[..1][..0]) + obs[0].y;
    assert obs[..1][..0] == [];
    assert L.SumX(obs) == obs[0].x + obs[1].x && L.SumY(obs) == obs[0].y + obs[1].y;
    assert obs[0] in obs;
  }

  lemma ClassifiedExists(c: T.Config, obs: seq<T.Obs>, f0: L.Fit) returns (f: L.Fit)
    requires T.ValidConfig(c) && f0.nInliers == |T.Consistents(c, f0.x, f0.y, obs, f0.originT)|
    ensures L.Classified(c, obs, f)
    ensures f == f0.(inlier := f.inlier, phase := f.phase, residual := f.residual, hypo := f.hypo)
  {
    hide T.Consistents, T.Hypo;
    var n, x, y, t := |obs|, f0.x, f0.y, f0.originT;
    var inlier := seq(n, i requires 0 <= i < n => T.Consistent(c, x, y, obs[i], t));
    var phase := seq(n, i requires 0 <= i < n =>
      if !inlier[i] then L.Unassigned else if L.PrefersS(c, x, y, obs[i], t) then L.S else L.P);
    var residual := seq(n, i requires 0 <= i < n =>
      if inlier[i] then L.ChosenOrigin(c, x, y, obs[i], t) - t else 0.0);
    var hypo := seq(n, i requires 0 <= i < n => T.Hypo(c, x, y, obs[i]));
    f := f0.(inlier := inlier, phase := phase, residual := residual, hypo := hypo);
    forall i | 0 <= i < n
      ensures L.ClassifiedAt(c, obs[i], f, f.inlier[i], f.phase[i], f.residual[i], f.hypo[i]) {}
  }

  lemma TwinLocated(c: T.Config, obs: seq<T.Obs>) returns (f: L.Fit)
    requires T.ValidConfig(c) && T.Tolerant(obs) && Twin(obs)
    ensures L.Classified(c, obs, f) && L.Located(c, obs, f)
  {
    hide L.Score, T.Consistents, L.Covers, L.AreaOf, L.RefinesCover, L.Classified, L.BestOf;
    var cx, cy, half := obs[0].x, obs[0].y, HalfWidth(c);
    TwinArea(c, obs);
    var nodes1, best1 := GridExists(c, obs, cx, cy, half, [], L.Node(0.0, 0.0, 0.0, 0.0, -1.0, 0));
    assert nodes1[0..] == nodes1;
    assert nodes1 != [] by { assert c.gridNodes * c.gridNodes >= 4; }
    var nodes, best := GridExists(c, obs, best1.x, best1.y, L.StepOf(c, half), nodes1, best1);
    assert nodes[..|nodes1|] == nodes1;
    assert L.TwoGridsAt(c, obs, half, nodes, cx, cy, best1);
    L.BestIs(nodes, best);
    assert L.Evaluated(c, obs, best);
    f := ClassifiedExists(c, obs, L.Fit(best.x, best.y, best.t0, [], [], [], [], best.n, best.rms, 0.0, |nodes|, half));
    assert L.FitAt(f, best);
    assert L.LocatedAmong(c, obs, f, nodes);
  }

  // ---------------------------------------------------------------------
  // The weighted mean of two implied origin times
  // ---------------------------------------------------------------------

  function Weight(tau: real): (w: real)
    requires tau > 0.0
    ensures w > 0.0
  {
    ProductPositive(tau, tau);
    1.0 / (tau * tau)
  }

  /** The share of the first of two in their weighted mean. */
  function Pull(u: real, v: real): (r: real)
    requires u > 0.0 && v > 0.0
    ensures 0.0 < r < 1.0 && r * (u + v) == u
  {
    var r := u / (u + v);
    assert r * (u + v) == u;
    r
  }

  /** Against the same second weight, different weights have different shares. */
  lemma PullTells(u: real, u2: real, v: real)
    requires u > 0.0 && u2 > 0.0 && v > 0.0 && Pull(u, v) == Pull(u2, v)
    ensures u == u2
  {
    var r := Pull(u, v);
    ShareRest(r, u, v);
    ShareRest(r, u2, v);
    hide Pull;
    SameScaled(1.0 - r, u, u2);
  }

  lemma SameScaled(q: real, a: real, b: real)
    requires q > 0.0 && q * a == q * b
    ensures a == b
  {
    assert q * (a - b) == 0.0 && q * (b - a) == 0.0;
    if a > b { ProductPositive(q, a - b); }
    if b > a { ProductPositive(q, b - a); }
  }

  lemma ShareRest(r: real, u: real, v: real)
    requires r * (u + v) == u
    ensures (1.0 - r) * u == r * v
  {
  }

  lemma WeightTells(a: real, b: real)
    requires a > 0.0 && b > 0.0 && Weight(a) == Weight(b)
    ensures a == b
  {
    ProductPositive(a, a);
    ProductPositive(b, b);
    InverseTells(a * a, b * b);
    if a > b { DifferentSquares(a, b); }
    if b > a { DifferentSquares(b, a); }
  }

  lemma InverseTells(s: real, t: real)
    requires s > 0.0 && t > 0.0 && 1.0 / s == 1.0 / t
    ensures s == t
  {
    var q := 1.0 / s;
    assert q * s == 1.0 && q * t == 1.0;
    assert q * s * t == t && q * t * s == s;
  }

  lemma DifferentSquares(a: real, b: real)
    requires a > b > 0.0
    ensures a * a > b * b
  {
    ProductPositive(a - b, a + b);
    assert (a - b) * (a + b) == a * a - b * b;
  }

  /** The weighted mean of two times, the first having share r. */
  function Blend(r: real, a: real, b: real): real { b + r * (a - b) }

  function WeightedMean(ps: seq<L.Pick>): real
    requires L.Positive(ps) && ps != []
  {
    L.Moment(ps) / L.WeightSum(ps)
  }

  lemma PairSums(p: L.Pick, q: L.Pick)
    requires p.tau > 0.0 && q.tau > 0.0
    ensures L.Positive([p, q]) && L.WeightSum([p, q]) == Weight(p.tau) + Weight(q.tau)
    ensures L.Moment([p, q]) == Weight(p.tau) * p.at + Weight(q.tau) * q.at
  {
    assert L.WeightSum([]) == 0.0 && L.Moment([]) == 0.0;
    assert [] + [p] == [p] && [p] + [q] == [p, q];
    hide L.WeightSum, L.Moment, L.SquareSum;
    L.SumsStep([], p, 0.0);
    L.SumsStep([p], q, 0.0);
  }

  lemma PairMean(p: L.Pick, q: L.Pick)
    requires p.tau > 0.0 && q.tau > 0.0
    ensures L.Positive([p, q])
    ensures WeightedMean([p, q]) == Blend(Pull(Weight(p.tau), Weight(q.tau)), p.at, q.at)
  {
    hide L.Moment, L.WeightSum, L.Positive, Weight, Pull;
    PairSums(p, q);
    MeanOf(Weight(p.tau), Weight(q.tau), p.at, q.at, L.Moment([p, q]), L.WeightSum([p, q]));
  }

  lemma MeanOf(u: real, v: real, a: real, b: real, m: real, sum: real)
    requires u > 0.0 && v > 0.0 && m == u * a + v * b && sum == u + v
    ensures m / sum == Blend(Pull(u, v), a, b)
  {
    var r := Pull(u, v);
    assert (b + r * (a - b)) * sum == b * (u + v) + (r * (u + v)) * (a - b);
    assert m == (b + r * (a - b)) * sum;
  }

  // ---------------------------------------------------------------------
  // What every location of a pair has in common
  // ---------------------------------------------------------------------

  /** How much later than the P wave the S wave arrives. */
  function Lag(c: T.Config, x: real, y: real, o: T.Obs): real
    requires T.ValidConfig(c)
  {
    T.Hypo(c, x, y, o) / c.vs - T.Hypo(c, x, y, o) / c.vp
  }

  lemma SameHypo(c: T.Config, x: real, y: real, o: T.Obs, p: T.Obs)
    requires o.x == p.x && o.y == p.y
    ensures T.Hypo(c, x, y, o) == T.Hypo(c, x, y, p)
  {
    assert SlantSquared(c, x, y, o) == SlantSquared(c, x, y, p);
  }

  function SlantSquared(c: T.Config, x: real, y: real, o: T.Obs): real {
    (x - o.x) * (x - o.x) + (y - o.y) * (y - o.y) + c.depth * c.depth
  }

  lemma BothConsistent(c: T.Config, x: real, y: real, obs: seq<T.Obs>, t: real)
    requires T.ValidConfig(c) && |obs| == 2 && |T.Consistents(c, x, y, obs, t)| >= 2
    ensures T.Consistent(c, x, y, obs[0], t) && T.Consistent(c, x, y, obs[1], t)
  {
    hide T.Consistent;
    var s := T.Consistents(c, x, y, obs, t);
    if !T.Consistent(c, x, y, obs[0], t) { SubsetSize(s, {1}); }
    if !T.Consistent(c, x, y, obs[1], t) { SubsetSize(s, {0}); }
  }

  lemma BothCounted(c: T.Config, x: real, y: real, obs: seq<T.Obs>, t: real)
    requires T.ValidConfig(c) && |obs| == 2
    requires T.Consistent(c, x, y, obs[0], t) && T.Consistent(c, x, y, obs[1], t)
    ensures |T.Consistents(c, x, y, obs, t)| == 2
  {
    hide T.Consistent;
    assert T.Consistents(c, x, y, obs, t) == {0, 1};
  }

  /** The second observation is too much later to be of the same phase as the first. */
  predicate Apart(obs: seq<T.Obs>) { |obs| == 2 && obs[1].t - obs[0].t > obs[0].tau + obs[1].tau }

  /** The origin time of a pair explained as the P and the S wave of a source at (x, y). */
  function MeanOrigin(c: T.Config, x: real, y: real, obs: seq<T.Obs>): real
    requires T.ValidConfig(c) && T.Tolerant(obs) && |obs| == 2
  {
    assert obs[0] in obs && obs[1] in obs;
    var p, s := T.POrigin(c, x, y, obs[0]), T.SOrigin(c, x, y, obs[1]);
    Blend(Pull(Weight(obs[0].tau), Weight(obs[1].tau)), p, s)
  }

  /** A time that explains both explains the first as the P wave and the second as the S wave. */
  lemma OnlyAsPhases(c: T.Config, obs: seq<T.Obs>, x: real, y: real, at: real)
    requires T.ValidConfig(c) && Twin(obs) && Apart(obs) && Lag(c, x, y, obs[0]) >= 0.0
    requires T.Consistent(c, x, y, obs[0], at) && T.Consistent(c, x, y, obs[1], at)
    ensures L.ChosenOrigin(c, x, y, obs[0], at) == T.POrigin(c, x, y, obs[0])
    ensures L.ChosenOrigin(c, x, y, obs[1], at) == T.SOrigin(c, x, y, obs[1])
  {
    SameHypo(c, x, y, obs[0], obs[1]);
    hide T.Hypo;
    var lag, gap := Lag(c, x, y, obs[0]), obs[1].t - obs[0].t;
    var p, s := T.POrigin(c, x, y, obs[0]), T.SOrigin(c, x, y, obs[1]);
    assert T.SOrigin(c, x, y, obs[0]) == p - lag && T.POrigin(c, x, y, obs[1]) == s + lag && s - p == gap - lag;
  }

  /** A node at which some time explains both has the weighted mean of the two phases as its origin time. */
  lemma PairRefined(c: T.Config, obs: seq<T.Obs>, d: L.Node, t: real)
    requires T.ValidConfig(c) && T.Tolerant(obs) && Twin(obs) && Apart(obs) && Lag(c, d.x, d.y, obs[0]) >= 0.0
    requires L.Evaluated(c, obs, d) && |T.Consistents(c, d.x, d.y, obs, t)| >= 2
    ensures d.t0 == MeanOrigin(c, d.x, d.y, obs)
  {
    var x, y := d.x, d.y;
    assert obs != [];
    hide *;
    var at := CoverOf(c, obs, d, t);
    PairTime(c, x, y, obs, at);
  }

  lemma PairTime(c: T.Config, x: real, y: real, obs: seq<T.Obs>, at: real)
    requires T.ValidConfig(c) && T.Tolerant(obs) && Twin(obs) && Apart(obs) && Lag(c, x, y, obs[0]) >= 0.0
    requires |T.Consistents(c, x, y, obs, at)| >= 2
    ensures var ps := L.Picks(c, x, y, obs, at); ps != [] && WeightedMean(ps) == MeanOrigin(c, x, y, obs)
  {
    assert |obs| == 2;
    hide *;
    MeanIs(c, x, y, obs);
    BothConsistent(c, x, y, obs, at);
    OnlyAsPhases(c, obs, x, y, at);
    PairPicks(c, x, y, obs, at);
    PairMean(L.Pick(T.POrigin(c, x, y, obs[0]), obs[0].tau), L.Pick(T.SOrigin(c, x, y, obs[1]), obs[1].tau));
  }

  /** The time that a node was refined from explains as many as any other. */
  lemma CoverOf(c: T.Config, obs: seq<T.Obs>, d: L.Node, t: real) returns (at: real)
    requires T.ValidConfig(c) && T.Tolerant(obs) && obs != [] && L.Evaluated(c, obs, d)
    ensures |T.Consistents(c, d.x, d.y, obs, at)| >= |T.Consistents(c, d.x, d.y, obs, t)|
    ensures var ps := L.Picks(c, d.x, d.y, obs, at); ps != [] && d.t0 == WeightedMean(ps)
  {
    hide L.Score, L.Picks, L.Moment, L.WeightSum, L.SquareSum, T.Consistents;
    at :| L.RefinesCover(c, obs, d, at);
  }

  lemma MeanIs(c: T.Config, x: real, y: real, obs: seq<T.Obs>)
    requires T.ValidConfig(c) && T.Tolerant(obs) && |obs| == 2
    ensures obs[0].tau > 0.0 && obs[1].tau > 0.0
    ensures var p, s := T.POrigin(c, x, y, obs[0]), T.SOrigin(c, x, y, obs[1]);
            MeanOrigin(c, x, y, obs) == Blend(Pull(Weight(obs[0].tau), Weight(obs[1].tau)), p, s)
  {
    assert obs[0] in obs && obs[1] in obs;
    hide T.POrigin, T.SOrigin, Pull, Weight;
  }

  lemma PairPicks(c: T.Config, x: real, y: real, obs: seq<T.Obs>, at: real)
    requires T.ValidConfig(c) && T.Tolerant(obs) && |obs| == 2
    requires T.Consistent(c, x, y, obs[0], at) && T.Consistent(c, x, y, obs[1], at)
    ensures L.Picks(c, x, y, obs, at) == [L.Pick(L.ChosenOrigin(c, x, y, obs[0], at), obs[0].tau),
                                          L.Pick(L.ChosenOrigin(c, x, y, obs[1], at), obs[1].tau)]
  {
    hide T.Consistent, L.ChosenOrigin;
    assert obs[..1][..0] == [] && obs[0] in obs;
    assert L.Picks(c, x, y, obs[..1], at) == [L.Pick(L.ChosenOrigin(c, x, y, obs[0], at), obs[0].tau)];
  }

  /** The observations are nearly the P and the S arrival from a source at (x, y). */
  predicate Phases(c: T.Config, obs: seq<T.Obs>, x: real, y: real)
    requires T.ValidConfig(c)
  {
    && Twin(obs) && Apart(obs)
    && var off := Abs(T.POrigin(c, x, y, obs[0]) - T.SOrigin(c, x, y, obs[1]));
       2.0 * off <= obs[0].tau && 2.0 * off <= obs[1].tau
  }

  /** At its source, a pair of phases scores more than any single observation can. */
  lemma SourceScore(c: T.Config, obs: seq<T.Obs>, d: L.Node)
    requires T.ValidConfig(c) && T.Tolerant(obs) && Phases(c, obs, d.x, d.y) && L.Evaluated(c, obs, d)
    ensures d.score > 1.0
  {
    var x, y := d.x, d.y;
    var m := MeanOrigin(c, x, y, obs);
    assert obs[0] in obs && obs[1] in obs;
    PhasesLag(c, obs, x, y);
    PhasesNear(c, obs, x, y);
    hide T.Hypo, L.Score, T.Consistents, T.Consistent, T.Tolerant, T.POrigin, T.SOrigin, L.ChosenOrigin, MeanOrigin,
         Lag;
    BothCounted(c, x, y, obs, m);
    PairRefined(c, obs, d, m);
    GoodScore(c, x, y, obs, m);
  }

  lemma PhasesLag(c: T.Config, obs: seq<T.Obs>, x: real, y: real)
    requires T.ValidConfig(c) && T.Tolerant(obs) && Phases(c, obs, x, y)
    ensures Twin(obs) && Apart(obs) && Lag(c, x, y, obs[0]) >= 0.0
  {
    SameHypo(c, x, y, obs[0], obs[1]);
    hide T.Hypo;
    assert obs[0] in obs && obs[1] in obs;
  }

  /** The mean is within half a tolerance of both phases. */
  lemma PhasesNear(c: T.Config, obs: seq<T.Obs>, x: real, y: real)
    requires T.ValidConfig(c) && T.Tolerant(obs) && Phases(c, obs, x, y)
    ensures var m := MeanOrigin(c, x, y, obs);
            && T.Consistent(c, x, y, obs[0], m) && T.Consistent(c, x, y, obs[1], m)
            && 2.0 * Abs(L.ChosenOrigin(c, x, y, obs[0], m) - m) <= obs[0].tau
            && 2.0 * Abs(L.ChosenOrigin(c, x, y, obs[1], m) - m) <= obs[1].tau
  {
    var p, s, m := T.POrigin(c, x, y, obs[0]), T.SOrigin(c, x, y, obs[1]), MeanOrigin(c, x, y, obs);
    MeanIs(c, x, y, obs);
    NearMean(Pull(Weight(obs[0].tau), Weight(obs[1].tau)), p, s, m);
    hide T.Consistent, L.ChosenOrigin, T.POrigin, T.SOrigin, MeanOrigin, Pull, Weight, T.Tolerant, Twin, Apart;
    NearPhase(c, x, y, obs[0], m, Abs(p - s));
    NearPhase(c, x, y, obs[1], m, Abs(p - s));
  }

  lemma NearMean(r: real, p: real, s: real, m: real)
    requires 0.0 < r < 1.0 && m == Blend(r, p, s)
    ensures Abs(p - m) <= Abs(p - s) && Abs(s - m) <= Abs(p - s)
  {
    Between(r, p - s);
  }

  lemma NearPhase(c: T.Config, x: real, y: real, o: T.Obs, m: real, off: real)
    requires T.ValidConfig(c) && 0.0 <= 2.0 * off <= o.tau
    requires Abs(T.POrigin(c, x, y, o) - m) <= off || Abs(T.SOrigin(c, x, y, o) - m) <= off
    ensures T.Consistent(c, x, y, o, m) && 2.0 * Abs(L.ChosenOrigin(c, x, y, o, m) - m) <= o.tau
  {
    hide T.POrigin, T.SOrigin;
  }

  lemma Between(r: real, d: real)
    requires 0.0 < r < 1.0
    ensures Abs(r * d) <= Abs(d) && Abs(r * d - d) <= Abs(d)
  {
    var q := 1.0 - r;
    if d >= 0.0 {
      assert r * d >= 0.0 && q * d >= 0.0;
    } else {
      assert r * (-d) >= 0.0 && q * (-d) >= 0.0;
    }
    assert q * d == d - r * d;
  }

  lemma GoodScore(c: T.Config, x: real, y: real, obs: seq<T.Obs>, t: real)
    requires T.ValidConfig(c) && T.Tolerant(obs) && |obs| == 2
    requires T.Consistent(c, x, y, obs[0], t) && T.Consistent(c, x, y, obs[1], t)
    requires 2.0 * Abs(L.ChosenOrigin(c, x, y, obs[0], t) - t) <= obs[0].tau
    requires 2.0 * Abs(L.ChosenOrigin(c, x, y, obs[1], t) - t) <= obs[1].tau
    ensures L.Score(c, x, y, obs, t) > 1.0
  {
    hide T.Consistent, L.ChosenOrigin, L.Kernel;
    assert obs[0] in obs && obs[1] in obs;
    GoodKernel(L.ChosenOrigin(c, x, y, obs[0], t) - t, obs[0].tau);
    GoodKernel(L.ChosenOrigin(c, x, y, obs[1], t) - t, obs[1].tau);
    assert obs[..1][..0] == [];
    assert L.Score(c, x, y, obs[..1], t) > 0.5;
  }

  lemma GoodKernel(r: real, tau: real)
    requires tau > 0.0 && 2.0 * Abs(r) <= tau
    ensures L.Kernel(r, tau) > 0.5
  {
    var q := Abs(r) / tau;
    assert q * tau == Abs(r);
    assert 0.0 <= q <= 0.5;
    assert q * q <= 0.25;
    if r < 0.0 { assert r / tau == -q; }
  }

  /** (x, y) is a node of the first grid around a single place. */
  ghost predicate OnFirstGrid(c: T.Config, o: T.Obs, x: real, y: real)
    requires T.ValidConfig(c)
  {
    exists i: nat, j: nat :: i < c.gridNodes && j < c.gridNodes
                             && x == L.GridAt(o.x, HalfWidth(c), L.StepOf(c, HalfWidth(c)), i)
                             && y == L.GridAt(o.y, HalfWidth(c), L.StepOf(c, HalfWidth(c)), j)
  }

  /** Wherever it is on the grid, the source of a pair of phases makes the locator explain both. */
  lemma PhasesLocated(c: T.Config, obs: seq<T.Obs>, x: real, y: real, f: L.Fit)
    requires T.ValidConfig(c) && T.Tolerant(obs) && Phases(c, obs, x, y) && OnFirstGrid(c, obs[0], x, y)
    requires L.Located(c, obs, f)
    ensures f.nInliers == 2
  {
    hide L.GridAt, L.StepOf, L.AreaOf, L.OnGrid, L.Evaluated, Phases, T.Tolerant, HalfWidth;
    var nodes: seq<L.Node> :| L.LocatedAmong(c, obs, f, nodes);
    var best :| L.BestOf(nodes, best) && L.FitAt(f, best);
    var cx, cy, best1 :| L.TwoGridsAt(c, obs, f.halfWidth, nodes, cx, cy, best1);
    assert Twin(obs) by { OfPhases(c, obs, x, y); }
    TwinArea(c, obs);
    var m := c.gridNodes * c.gridNodes;
    assert L.HasNode(nodes[..m], x, y);
    var k :| 0 <= k < m && nodes[..m][k].x == x && nodes[..m][k].y == y;
    var d := nodes[k];
    assert d in nodes;
    SourceScore(c, obs, d);
    L.BestIs(nodes, best);
    ScoreCounts(c, obs, best);
  }

  lemma OfPhases(c: T.Config, obs: seq<T.Obs>, x: real, y: real)
    requires T.ValidConfig(c) && Phases(c, obs, x, y)
    ensures Twin(obs)
  {
  }

  lemma ScoreCounts(c: T.Config, obs: seq<T.Obs>, d: L.Node)
    requires T.ValidConfig(c) && T.Tolerant(obs) && L.Evaluated(c, obs, d)
    ensures d.score <= d.n as real && d.n <= |obs|
  {
    hide T.Consistents, L.Score;
    CountBound(c, d.x, d.y, obs, d.t0);
  }

  // ---------------------------------------------------------------------
  // The clusters of a pair
  // ---------------------------------------------------------------------

  /** Two votes standing at one place. */
  predicate TwinVotes(vs: seq<Vote>) { |vs| == 2 && vs[0].lat == vs[1].lat && vs[0].lng == vs[1].lng }

  /** What the locator sees of two votes at one place. */
  function Seen(c: A.Tuning, vs: seq<Vote>): seq<T.Obs>
    requires TwinVotes(vs)
  {
    A.AllObs(c, vs[0].lat, vs[0].lng, vs)
  }

  lemma MeanPlace(c: A.Tuning, vs: seq<Vote>)
    requires TwinVotes(vs)
    ensures A.Latitudes(vs) / 2.0 == vs[0].lat && A.Longitudes(vs) / 2.0 == vs[0].lng
    ensures Twin(Seen(c, vs))
  {
    hide Linking.Tau;
    assert A.Latitudes(vs[..1]) == A.Latitudes(vs[..1][..0]) + vs[0].lat;
    assert A.Longitudes(vs[..1]) == A.Longitudes(vs[..1][..0]) + vs[0].lng;
    assert vs[..1][..0] == [];
    assert A.Latitudes(vs) == vs[0].lat + vs[0].lat && A.Longitudes(vs) == vs[0].lng + vs[0].lng;
  }

  lemma LocatedSeen(c: A.Tuning, vs: seq<Vote>, f: L.Fit)
    requires Linking.ValidRules(c.link) && TwinVotes(vs)
    ensures A.LocatedFor(c, vs, f) <==>
              T.Tolerant(Seen(c, vs)) && L.Classified(c.link.travel, Seen(c, vs), f)
              && L.Located(c.link.travel, Seen(c, vs), f)
  {
    hide T.Tolerant, L.Classified, L.Located, A.AllObs;
    MeanPlace(c, vs);
    assert |A.AllObs(c, vs[0].lat, vs[0].lng, vs)| == 2;
  }

  /** Two votes at one place have an extraction. */
  lemma TwinExtraction(c: A.Tuning, vs: seq<Vote>) returns (cls: seq<A.Cluster>)
    requires A.ValidTuning(c) && Linking.ValidRules(c.link) && TwinVotes(vs)
    ensures A.ExtractionOf(c, vs, cls)
  {
    hide A.Peeled, A.PeeledFrom, A.Fitted, A.ValidTuning, A.LocatedFor, A.Latitudes, A.Longitudes, L.Classified,
         L.Located, T.Tolerant, Twin;
    MeanPlace(c, vs);
    A.TausPositive(c, vs[0].lat, vs[0].lng, vs);
    var f := TwinLocated(c.link.travel, Seen(c, vs));
    LocatedSeen(c, vs, f);
    var mark: seq<nat> := [0, 0];
    A.NothingPeeled(c, vs, mark);
    if f.nInliers < 2 {
      assert A.Extracted(c, vs, [], mark);
      return [];
    }
    A.ClassifiedSizes(c.link.travel, Seen(c, vs), f);
    var cl := A.Cluster(Chosen(vs, f.inlier, true), A.CutDown(f), vs[0].lat, vs[0].lng, vs);
    A.CutDownClassified(c, vs[0].lat, vs[0].lng, vs, f, cl);
    A.PeelWitness(c, vs, f, cl);
    A.FittedSize(c, cl);
    BothSides(vs, f.inlier);
    var mark2 := A.PeelOne(c, vs, [], mark, f.inlier, cl);
    assert A.Extracted(c, vs, [] + [cl], mark2);
    cls := [] + [cl];
  }

  /** The only cluster of the pair: both votes, and a source located for them. */
  ghost predicate WholePair(c: A.Tuning, vs: seq<Vote>, cls: seq<A.Cluster>, f: L.Fit)
    requires Linking.ValidRules(c.link) && vs != []
  {
    && |cls| == 1 && cls[0].votes == vs && A.Fitted(c, cls[0]) && A.LocatedFor(c, vs, f)
    && cls[0].fit.x == f.x && cls[0].fit.y == f.y && cls[0].fit.originT == f.originT
  }

  /** If every source located for the pair explains both votes, its extraction is one cluster of both. */
  lemma OneCluster(c: A.Tuning, vs: seq<Vote>, cls: seq<A.Cluster>) returns (f: L.Fit)
    requires Linking.ValidRules(c.link) && TwinVotes(vs) && A.ExtractionOf(c, vs, cls)
    requires forall g :: A.LocatedFor(c, vs, g) ==> g.nInliers == 2
    ensures WholePair(c, vs, cls, f)
  {
    hide A.LocatedFor, A.Fitted, Labelled, From, Flags, Chosen, A.Latitudes, A.Longitudes;
    var mark: seq<nat> :| A.Extracted(c, vs, cls, mark);
    if cls == [] { LabelledAll(vs, mark, 0); }
    assert cls != [];
    assert A.PeeledAt(c, vs, cls[0], mark, 0);
    FromAll(vs, mark, 0);
    f :| A.PeeledBy(c, vs, Flags(mark, 0), cls[0], f);
    AllExplained(c, vs, f);
    ChosenAll(vs, f.inlier);
    if |cls| > 1 {
      SomethingPeeled(c, vs, cls, mark, 1);
      FlagsOfTwo(mark);
      FromNone(vs, mark, 1);
    }
  }

  lemma SomethingPeeled(c: A.Tuning, grp: seq<Vote>, cls: seq<A.Cluster>, mark: seq<nat>, k: nat)
    requires Linking.ValidRules(c.link) && A.Peeled(c, grp, cls, mark) && k < |cls|
    ensures From(grp, mark, k) != []
  {
    hide From, A.PeeledBy;
    assert A.PeeledAt(c, grp, cls[k], mark, k);
  }

  lemma AllExplained(c: A.Tuning, vs: seq<Vote>, f: L.Fit)
    requires Linking.ValidRules(c.link) && TwinVotes(vs) && A.LocatedFor(c, vs, f) && f.nInliers == 2
    ensures f.inlier == [true, true]
  {
    hide L.Located, T.Tolerant, T.Consistent, T.Consistents, A.AllObs;
    LocatedSeen(c, vs, f);
    BothConsistent(c.link.travel, f.x, f.y, Seen(c, vs), f.originT);
  }

  /** Two marks that raise both flags are those of one class. */
  lemma FlagsOfTwo(mark: seq<nat>)
    requires |mark| == 2 && Flags(mark, 0) == [true, true]
    ensures mark == [0, 0]
  {
    assert mark[..1][..0] == [];
    assert Flags(mark[..1], 0) == Flags(mark[..1][..0], 0) + [mark[0] == 0];
    var fl := Flags(mark, 0);
    assert fl == [mark[0] == 0, mark[1] == 0];
    assert fl[0] && fl[1];
  }

  // ---------------------------------------------------------------------
  // A unit's P and S waves
  // ---------------------------------------------------------------------

  /** A vote that says when, and nothing else. */
  function VoteAt(k: VoteKey, place: (real, real), t: real, sigma: real): Vote {
    Vote(k, place.0, place.1, t, sigma, 1, 1, 0.0, {}, 0, t, 0.0)
  }

  /** The two votes are nearly the P and the S arrival from a node of the first grid around them. */
  ghost predicate PhaseVotes(c: A.Tuning, vs: seq<Vote>, x: real, y: real)
    requires Linking.ValidRules(c.link)
  {
    && TwinVotes(vs) && Phases(c.link.travel, Seen(c, vs), x, y)
    && OnFirstGrid(c.link.travel, Seen(c, vs)[0], x, y)
  }

  /** Votes at a source's P and S arrivals are always extracted as one cluster of both. */
  lemma PhasesExtracted(c: A.Tuning, vs: seq<Vote>, x: real, y: real)
    requires A.ValidTuning(c) && Linking.ValidRules(c.link) && PhaseVotes(c, vs, x, y)
    ensures exists cls :: A.ExtractionOf(c, vs, cls)
    ensures forall cls: seq<A.Cluster> :: A.ExtractionOf(c, vs, cls) ==>
              |cls| == 1 && cls[0].votes == vs && A.Fitted(c, cls[0])
  {
    hide A.ValidTuning, A.LocatedFor, A.ExtractionOf, A.Fitted, Phases, OnFirstGrid, L.Classified, L.Located,
         T.Tolerant, A.AllObs;
    var some := TwinExtraction(c, vs);
    forall f | A.LocatedFor(c, vs, f) ensures f.nInliers == 2 {
      LocatedSeen(c, vs, f);
      PhasesLocated(c.link.travel, Seen(c, vs), x, y, f);
    }
    forall cls: seq<A.Cluster> | A.ExtractionOf(c, vs, cls)
      ensures |cls| == 1 && cls[0].votes == vs && A.Fitted(c, cls[0])
    {
      var f := OneCluster(c, vs, cls);
    }
  }

  // ---------------------------------------------------------------------
  // Where a pair can be located
  // ---------------------------------------------------------------------

  ghost function GridPoints(c: T.Config, ox: real, oy: real, half: real): set<(real, real)>
    requires T.ValidConfig(c)
  {
    var step := L.StepOf(c, half);
    set i: nat, j: nat | i < c.gridNodes && j < c.gridNodes ::
      (L.GridAt(ox, half, step, i), L.GridAt(oy, half, step, j))
  }

  /** Every node that a search around a single place may visit. */
  ghost function Reachable(c: T.Config, o: T.Obs): set<(real, real)>
    requires T.ValidConfig(c)
  {
    var first := GridPoints(c, o.x, o.y, HalfWidth(c));
    first + set p, q | p in first && q in GridPoints(c, p.0, p.1, L.StepOf(c, HalfWidth(c))) :: q
  }

  lemma GridHolds(c: T.Config, nodes: seq<L.Node>, ox: real, oy: real, half: real, d: L.Node)
    requires T.ValidConfig(c) && L.GridNodes(c, nodes, ox, oy, half) && d in nodes
    ensures (d.x, d.y) in GridPoints(c, ox, oy, half)
  {
    hide L.GridAt, L.StepOf, L.HasNode;
    var k :| 0 <= k < |nodes| && nodes[k] == d;
    assert L.OnGrid(nodes[k], c.gridNodes, ox, oy, half, L.StepOf(c, half));
  }

  lemma LocatedReachable(c: T.Config, obs: seq<T.Obs>, nodes: seq<L.Node>, half: real, d: L.Node)
    requires T.ValidConfig(c) && Twin(obs) && L.TwoGrids(c, obs, half, nodes) && d in nodes
    ensures (d.x, d.y) in Reachable(c, obs[0])
  {
    hide L.GridNodes, L.AreaOf, GridPoints, HalfWidth, L.StepOf;
    var cx, cy, best1 :| L.TwoGridsAt(c, obs, half, nodes, cx, cy, best1);
    TwinArea(c, obs);
    var m := c.gridNodes * c.gridNodes;
    L.BestIs(nodes[..m], best1);
    GridHolds(c, nodes[..m], cx, cy, half, best1);
    if d in nodes[..m] {
      GridHolds(c, nodes[..m], cx, cy, half, d);
    } else {
      assert nodes == nodes[..m] + nodes[m..];
      GridHolds(c, nodes[m..], best1.x, best1.y, L.StepOf(c, half), d);
      var p := (best1.x, best1.y);
      assert (d.x, d.y) in GridPoints(c, p.0, p.1, L.StepOf(c, HalfWidth(c)));
    }
  }

  /** Nowhere does the S wave come first. */
  ghost predicate LateS(c: T.Config)
    requires T.ValidConfig(c)
  {
    forall x, y, o :: Lag(c, x, y, o) >= 0.0
  }

  /** A source located for both observations has their mean origin time. */
  lemma LocatedMean(c: T.Config, obs: seq<T.Obs>, f: L.Fit)
    requires T.ValidConfig(c) && T.Tolerant(obs) && Twin(obs) && Apart(obs) && LateS(c)
    requires L.Located(c, obs, f) && f.nInliers >= 2
    ensures (f.x, f.y) in Reachable(c, obs[0]) && f.originT == MeanOrigin(c, f.x, f.y, obs)
  {
    assert Lag(c, f.x, f.y, obs[0]) >= 0.0;
    hide L.TwoGrids, Twin, Apart, T.Tolerant, LateS, MeanOrigin, Reachable, Lag, T.Consistents, L.Score, L.RefinesCover;
    var nodes: seq<L.Node> :| L.LocatedAmong(c, obs, f, nodes);
    var best :| L.BestOf(nodes, best) && L.FitAt(f, best);
    L.BestIs(nodes, best);
    LocatedReachable(c, obs, nodes, f.halfWidth, best);
    PairRefined(c, obs, best, best.t0);
  }

  /** Wherever both pairs may be located, their origin times differ. */
  ghost predicate Discerned(c: T.Config, a: seq<T.Obs>, b: seq<T.Obs>)
    requires T.ValidConfig(c) && T.Tolerant(a) && T.Tolerant(b) && |a| == |b| == 2
  {
    forall n :: n in Reachable(c, a[0]) ==> MeanOrigin(c, n.0, n.1, a) != MeanOrigin(c, n.0, n.1, b)
  }

  // ---------------------------------------------------------------------
  // A second vote that tells two readings of the first apart
  // ---------------------------------------------------------------------

  /** The one offset at which shares ra of u and rb of u - t can be equal. */
  function Coincidence(ra: real, rb: real, t: real): real { if ra == rb then 0.0 else -(rb * t) / (ra - rb) }

  lemma BlendsDiffer(ra: real, rb: real, u: real, t: real)
    requires ra > 0.0 && rb > 0.0 && (ra == rb ==> t != 0.0) && (ra != rb ==> u != Coincidence(ra, rb, t))
    ensures ra * u != rb * (u - t)
  {
    if ra * u == rb * (u - t) {
      assert (ra - rb) * u == -(rb * t);
      if ra == rb {
        SameScaled(rb, t, 0.0);
      } else {
        Quotient(-(rb * t), ra - rb, u);
      }
    }
  }

  lemma Quotient(n: real, d: real, q: real)
    requires d != 0.0 && d * q == n
    ensures n / d == q
  {
  }

  /** Above any number there are others close by that avoid a finite set. */
  lemma Avoiding(s: set<real>, b: real, eps: real) returns (d: real)
    requires eps > 0.0
    ensures 0.0 < d < eps && b + d !in s
  {
    var gap := Clear(s, b, eps);
    d := gap / 2.0;
  }

  lemma Member<A>(s: set<A>) returns (x: A)
    requires s != {}
    ensures x in s
  {
    x :| x in s;
  }

  lemma Clear(s: set<real>, b: real, eps: real) returns (gap: real)
    requires eps > 0.0
    ensures 0.0 < gap <= eps && forall x :: x in s ==> x <= b || x >= b + gap
  {
    if s == {} {
      gap := eps;
    } else {
      var x := Member(s);
      var rest := s - {x};
      gap := Clear(rest, b, eps);
      if b < x < b + gap { gap := x - b; }
      assert forall z :: z in s ==> z == x || z in rest;
    }
  }

  /** Two readings of one vote, and what it takes to see both as the P wave before an S wave. */
  ghost predicate Separable(c: T.Config, a: T.Obs, b: T.Obs, x: real, y: real)
    requires T.ValidConfig(c)
  {
    && a.x == b.x && a.y == b.y && a.tau > 0.0 && b.tau > 0.0 && OnFirstGrid(c, a, x, y)
    && Lag(c, x, y, a) > a.tau + Max(a.tau, b.tau + Abs(a.t - b.t))
  }

  /** There is a time for the S wave at which the two readings never lead to the same origin. */
  lemma DiscerningTime(c: T.Config, a: T.Obs, b: T.Obs, x: real, y: real) returns (q: T.Obs)
    requires T.ValidConfig(c) && Separable(c, a, b, x, y) && (a.t != b.t || a.tau != b.tau)
    ensures q == a.(t := q.t) && Lag(c, x, y, a) < q.t - a.t < Lag(c, x, y, a) + a.tau
    ensures T.Tolerant([a, q]) && T.Tolerant([b, q]) && Phases(c, [a, q], x, y) && Apart([b, q])
    ensures Discerned(c, [a, q], [b, q])
  {
    SeparableParts(c, a, b, x, y);
    var ra, rb := Pull(Weight(a.tau), Weight(a.tau)), Pull(Weight(b.tau), Weight(a.tau));
    if a.tau != b.tau { SharesTell(a.tau, b.tau); }
    hide *;
    var lag, off := Lag(c, x, y, a), Coincidence(ra, rb, a.t - b.t);
    var lags := set n | n in Reachable(c, a) :: Lag(c, n.0, n.1, a) - off;
    var d := Avoiding(lags, lag, a.tau / 2.0);
    q := a.(t := a.t + lag + d);
    NearLag(c, a, q, x, y, d);
    TolerantPair(a, q);
    TolerantPair(b, q);
    forall n | n in Reachable(c, a) ensures MeanOrigin(c, n.0, n.1, [a, q]) != MeanOrigin(c, n.0, n.1, [b, q]) {
      assert Lag(c, n.0, n.1, a) - off in lags;
      MeansDiffer(c, n.0, n.1, a, b, q, ra, rb);
    }
  }

  lemma SeparableParts(c: T.Config, a: T.Obs, b: T.Obs, x: real, y: real)
    requires T.ValidConfig(c) && Separable(c, a, b, x, y)
    ensures a.x == b.x && a.y == b.y && a.tau > 0.0 && b.tau > 0.0 && OnFirstGrid(c, a, x, y)
    ensures Lag(c, x, y, a) > a.tau + a.tau && Lag(c, x, y, a) + (a.t - b.t) > b.tau + a.tau
  {
    hide Lag;
  }

  lemma SharesTell(a: real, b: real)
    requires a > 0.0 && b > 0.0 && a != b
    ensures Pull(Weight(a), Weight(a)) != Pull(Weight(b), Weight(a))
  {
    hide Pull, Weight;
    if Pull(Weight(a), Weight(a)) == Pull(Weight(b), Weight(a)) {
      PullTells(Weight(a), Weight(b), Weight(a));
      WeightTells(a, b);
    }
  }

  lemma TolerantPair(a: T.Obs, q: T.Obs)
    requires a.tau > 0.0 && q.tau > 0.0
    ensures T.Tolerant([a, q])
  {
  }

  lemma NearLag(c: T.Config, a: T.Obs, q: T.Obs, x: real, y: real, d: real)
    requires T.ValidConfig(c) && a.tau > 0.0 && q == a.(t := a.t + Lag(c, x, y, a) + d) && 0.0 < 2.0 * d <= a.tau
    requires Lag(c, x, y, a) > a.tau + a.tau
    ensures Phases(c, [a, q], x, y)
  {
    SameHypo(c, x, y, a, q);
    hide T.Hypo;
  }

  lemma MeansDiffer(c: T.Config, x: real, y: real, a: T.Obs, b: T.Obs, q: T.Obs, ra: real, rb: real)
    requires T.ValidConfig(c) && a.tau > 0.0 && b.tau > 0.0 && q == a.(t := q.t) && a.x == b.x && a.y == b.y
    requires ra == Pull(Weight(a.tau), Weight(q.tau)) && rb == Pull(Weight(b.tau), Weight(q.tau))
    requires ra == rb ==> a.t != b.t
    requires ra != rb ==> Lag(c, x, y, a) - (q.t - a.t) != Coincidence(ra, rb, a.t - b.t)
    ensures T.Tolerant([a, q]) && T.Tolerant([b, q])
    ensures MeanOrigin(c, x, y, [a, q]) != MeanOrigin(c, x, y, [b, q])
  {
    SameHypo(c, x, y, a, q);
    SameHypo(c, x, y, a, b);
    hide T.Hypo, Pull, Weight, Coincidence;
    var u := Lag(c, x, y, a) - (q.t - a.t);
    assert T.POrigin(c, x, y, a) - T.SOrigin(c, x, y, q) == u;
    assert T.POrigin(c, x, y, b) - T.SOrigin(c, x, y, q) == u - (a.t - b.t);
    BlendsDiffer(ra, rb, u, a.t - b.t);
  }

  // ---------------------------------------------------------------------
  // Cached solutions
  // ---------------------------------------------------------------------

  /** The same votes, put down to the same places and origin times. */
  ghost predicate SameSources(cls: seq<A.Cluster>, sol: seq<A.Cluster>) {
    |cls| == |sol| && forall k :: 0 <= k < |cls| ==> SameOrigin(cls[k], sol[k])
  }

  predicate SameOrigin(a: A.Cluster, b: A.Cluster) {
    && A.KeySeq(a.votes) == A.KeySeq(b.votes) && a.lat0 == b.lat0 && a.lng0 == b.lng0
    && a.fit.x == b.fit.x && a.fit.y == b.fit.y && a.fit.originT == b.fit.originT
  }

  /** The clusters have the sources of an extraction of the group. */
  ghost predicate SourcesKept(c: A.Tuning, grp: seq<Vote>, cls: seq<A.Cluster>)
    requires Linking.ValidRules(c.link)
  {
    exists sol :: A.ExtractionOf(c, grp, sol) && SameSources(cls, sol)
  }

  /** The first cluster of a pair too far apart for one phase has the mean origin time of its P and S wave. */
  lemma FirstOrigin(c: A.Tuning, vs: seq<Vote>, cls: seq<A.Cluster>)
    requires Linking.ValidRules(c.link) && TwinVotes(vs) && A.ExtractionOf(c, vs, cls) && cls != []
    requires T.Tolerant(Seen(c, vs)) && Apart(Seen(c, vs)) && LateS(c.link.travel)
    ensures var fit, obs := cls[0].fit, Seen(c, vs);
            && |obs| == 2 && (fit.x, fit.y) in Reachable(c.link.travel, obs[0])
            && fit.originT == MeanOrigin(c.link.travel, fit.x, fit.y, obs)
  {
    assert |Seen(c, vs)| == 2 by { MeanPlace(c, vs); }
    hide *;
    MeanPlace(c, vs);
    var f := FirstLocated(c, vs, cls);
    LocatedSeen(c, vs, f);
    LocatedMean(c.link.travel, Seen(c, vs), f);
  }

  /** The first cluster was peeled off the whole pair by a source explaining at least two votes. */
  lemma FirstLocated(c: A.Tuning, vs: seq<Vote>, cls: seq<A.Cluster>) returns (f: L.Fit)
    requires Linking.ValidRules(c.link) && |vs| == 2 && A.ExtractionOf(c, vs, cls) && cls != []
    ensures A.LocatedFor(c, vs, f) && f.nInliers >= 2
    ensures f.x == cls[0].fit.x && f.y == cls[0].fit.y && f.originT == cls[0].fit.originT
  {
    hide A.LocatedFor, L.Classified, Labelled, From, Flags, Chosen, A.Latitudes, A.Longitudes, A.AllObs;
    var mark: seq<nat> :| A.Extracted(c, vs, cls, mark);
    assert A.PeeledAt(c, vs, cls[0], mark, 0);
    FromAll(vs, mark, 0);
    f :| A.PeeledBy(c, vs, Flags(mark, 0), cls[0], f);
  }

  lemma OneSource(cls: seq<A.Cluster>, sol: seq<A.Cluster>)
    requires SameSources(cls, sol) && cls != []
    ensures sol != []
    ensures var f, g := cls[0].fit, sol[0].fit; f.x == g.x && f.y == g.y && f.originT == g.originT
  {
    hide A.KeySeq;
    assert SameOrigin(cls[0], sol[0]);
  }

  /** Pairs whose means differ wherever they may be located have no solution in common. */
  lemma NotKept(c: A.Tuning, g: seq<Vote>, g2: seq<Vote>, cls: seq<A.Cluster>)
    requires Linking.ValidRules(c.link) && TwinVotes(g) && TwinVotes(g2) && A.ExtractionOf(c, g, cls) && cls != []
    requires T.Tolerant(Seen(c, g)) && Apart(Seen(c, g)) && T.Tolerant(Seen(c, g2)) && Apart(Seen(c, g2))
    requires LateS(c.link.travel) && Discerned(c.link.travel, Seen(c, g), Seen(c, g2))
    ensures !SourcesKept(c, g2, cls)
  {
    hide A.ExtractionOf, T.Tolerant, Apart, LateS, Seen, TwinVotes, Reachable, MeanOrigin, A.KeySeq;
    FirstOrigin(c, g, cls);
    forall sol | A.ExtractionOf(c, g2, sol) ensures !SameSources(cls, sol) {
      if SameSources(cls, sol) {
        OneSource(cls, sol);
        FirstOrigin(c, g2, sol);
      }
    }
  }

  /** How the locator sees a reading of a vote at this place. */
  function ObsAt(c: A.Tuning, place: (real, real), r: A.Reading): T.Obs {
    A.ObsOf(c, place.0, place.1, VoteAt(r.key, place, r.t, r.sigma))
  }

  /** The group is two votes at the place with these readings. */
  predicate ReadAs(g: seq<Vote>, place: (real, real), r: A.Reading, q: A.Reading) {
    && |g| == 2 && A.ReadingOf(g[0]) == r && A.ReadingOf(g[1]) == q
    && (g[0].lat, g[0].lng) == place == (g[1].lat, g[1].lng)
  }

  lemma SeenAs(c: A.Tuning, g: seq<Vote>, place: (real, real), r: A.Reading, q: A.Reading)
    requires ReadAs(g, place, r, q)
    ensures TwinVotes(g) && Seen(c, g) == [ObsAt(c, place, r), ObsAt(c, place, q)]
  {
    hide Linking.Tau;
  }

  /**
   A re-read vote can make the cached solution one of other sources: of any two readings that print alike but differ in
   time or tolerance, with a vote of the same unit for the S wave. Every extraction of the first pair is one cluster of
   both votes, and no extraction of the second pair has its origin.
   */
  lemma StaleSolution(c: A.Tuning, place: (real, real), r: A.Reading, r2: A.Reading, x: real, y: real)
    returns (q: A.Reading)
    requires A.ValidTuning(c) && Linking.ValidRules(c.link) && LateS(c.link.travel) && A.MarkOf(r) == A.MarkOf(r2)
    requires Separable(c.link.travel, ObsAt(c, place, r), ObsAt(c, place, r2), x, y)
    requires r.t != r2.t || Linking.Tau(c.link, r.sigma) != Linking.Tau(c.link, r2.sigma)
    ensures q == A.Reading(VoteKey(r.key.unit, q.t.Floor), q.t, r.sigma)
    ensures var lag := Lag(c.link.travel, x, y, ObsAt(c, place, r));
            lag < q.t - r.t < lag + Linking.Tau(c.link, r.sigma)
    ensures forall g, g2, cls :: ReadAs(g, place, r, q) && ReadAs(g2, place, r2, q) && A.ExtractionOf(c, g, cls) ==>
              Stale(c, g, g2, cls)
  {
    var tc, a, b := c.link.travel, ObsAt(c, place, r), ObsAt(c, place, r2);
    ObsAtIs(c, place, r, r);
    ObsAtIs(c, place, r, r2);
    assert T.ValidConfig(tc);
    hide *;
    SeparableParts(tc, a, b, x, y);
    var o := DiscerningTime(tc, a, b, x, y);
    q := A.Reading(VoteKey(r.key.unit, o.t.Floor), o.t, r.sigma);
    ObsAtIs(c, place, r, q);
    forall g, g2, cls | ReadAs(g, place, r, q) && ReadAs(g2, place, r2, q) && A.ExtractionOf(c, g, cls)
      ensures Stale(c, g, g2, cls)
    {
      StalePair(c, place, r, r2, q, x, y, g, g2, cls);
    }
  }

  lemma ObsAtIs(c: A.Tuning, place: (real, real), r: A.Reading, q: A.Reading)
    ensures ObsAt(c, place, q) == ObsAt(c, place, r).(t := q.t, tau := Linking.Tau(c.link, q.sigma))
  {
    hide Linking.Tau;
  }

  /** Known by its signature, the group g2 gets the clusters of g; they are not its own. */
  ghost predicate Stale(c: A.Tuning, g: seq<Vote>, g2: seq<Vote>, cls: seq<A.Cluster>)
    requires Linking.ValidRules(c.link)
  {
    && A.Signature(g) == A.Signature(g2) && |cls| == 1 && cls[0].votes == g && A.Fitted(c, cls[0])
    && !SourcesKept(c, g2, cls)
  }

  lemma StalePair(c: A.Tuning, place: (real, real), r: A.Reading, r2: A.Reading, q: A.Reading, x: real, y: real,
                  g: seq<Vote>, g2: seq<Vote>, cls: seq<A.Cluster>)
    requires A.ValidTuning(c) && Linking.ValidRules(c.link) && LateS(c.link.travel) && A.MarkOf(r) == A.MarkOf(r2)
    requires ReadAs(g, place, r, q) && ReadAs(g2, place, r2, q) && A.ExtractionOf(c, g, cls)
    requires var tc, a, b, o := c.link.travel, ObsAt(c, place, r), ObsAt(c, place, r2), ObsAt(c, place, q);
             && T.Tolerant([a, o]) && T.Tolerant([b, o]) && Phases(tc, [a, o], x, y) && OnFirstGrid(tc, a, x, y)
             && Apart([b, o]) && Discerned(tc, [a, o], [b, o])
    ensures Stale(c, g, g2, cls)
  {
    SeenAs(c, g, place, r, q);
    SeenAs(c, g2, place, r2, q);
    SameSignature(g, g2, place, r, r2, q);
    PhasesLag(c.link.travel, Seen(c, g), x, y);
    hide *;
    assert PhaseVotes(c, g, x, y) by { ArePhaseVotes(c, g, x, y); }
    PhasesExtracted(c, g, x, y);
    NotKept(c, g, g2, cls);
    StaleIs(c, g, g2, cls);
  }

  lemma StaleIs(c: A.Tuning, g: seq<Vote>, g2: seq<Vote>, cls: seq<A.Cluster>)
    requires Linking.ValidRules(c.link) && A.Signature(g) == A.Signature(g2) && |cls| == 1 && cls[0].votes == g
    requires A.Fitted(c, cls[0]) && !SourcesKept(c, g2, cls)
    ensures Stale(c, g, g2, cls)
  {
  }

  lemma ArePhaseVotes(c: A.Tuning, vs: seq<Vote>, x: real, y: real)
    requires Linking.ValidRules(c.link) && TwinVotes(vs) && |Seen(c, vs)| == 2
    requires Phases(c.link.travel, Seen(c, vs), x, y) && OnFirstGrid(c.link.travel, Seen(c, vs)[0], x, y)
    ensures PhaseVotes(c, vs, x, y)
  {
  }

  lemma SameSignature(g: seq<Vote>, g2: seq<Vote>, place: (real, real), r: A.Reading, r2: A.Reading, q: A.Reading)
    requires ReadAs(g, place, r, q) && ReadAs(g2, place, r2, q) && A.MarkOf(r) == A.MarkOf(r2)
    ensures A.Signature(g) == A.Signature(g2)
  {
    hide A.MarkOf;
  }

  // ---------------------------------------------------------------------
  // Exactly when a re-read vote is noticed or harmless
  // ---------------------------------------------------------------------

  /** g2 is g with one of its votes, read as r, re-read as r2. */
  ghost predicate Reread(g: seq<Vote>, g2: seq<Vote>, r: A.Reading, r2: A.Reading) {
    |g| == |g2| && exists i :: 0 <= i < |g| && RereadAt(g, g2, r, r2, i)
  }

  ghost predicate RereadAt(g: seq<Vote>, g2: seq<Vote>, r: A.Reading, r2: A.Reading, i: nat)
    requires i < |g| == |g2|
  {
    && A.ReadingOf(g[i]) == r && A.ReadingOf(g2[i]) == r2 && g[i].lat == g2[i].lat && g[i].lng == g2[i].lng
    && forall j :: 0 <= j < |g| && j != i ==> A.SameView(g[j], g2[j])
  }

  /** If the cache takes the re-read group for the group it knows, the solution is one of the re-read group. */
  ghost predicate Harmless(c: A.Tuning, r: A.Reading, r2: A.Reading, g: seq<Vote>, g2: seq<Vote>, cls: seq<A.Cluster>)
    requires Linking.ValidRules(c.link)
  {
    Reread(g, g2, r, r2) && A.Signature(g) == A.Signature(g2) && A.ExtractionOf(c, g, cls) ==> SourcesKept(c, g2, cls)
  }

  /** Square roots of different numbers differ. */
  ghost predicate RootsDiffer(c: T.Config) {
    forall u, v :: u >= 0.0 && v >= 0.0 && c.sqrt(u) == c.sqrt(v) ==> u == v
  }

  /**
   Re-reading a vote leaves the cached solution of every group right exactly if the reading is the same or prints
   differently. The place and (x, y) are any from which the unit could tell the vote's P wave from an S wave.
   */
  lemma CacheExactly(c: A.Tuning, r: A.Reading, r2: A.Reading, place: (real, real), x: real, y: real)
    requires A.ValidTuning(c) && Linking.ValidRules(c.link) && LateS(c.link.travel) && RootsDiffer(c.link.travel)
    requires r.key == r2.key && r.sigma >= 0.0 && r2.sigma >= 0.0
    requires Separable(c.link.travel, ObsAt(c, place, r), ObsAt(c, place, r2), x, y)
    ensures (forall g, g2, cls :: Harmless(c, r, r2, g, g2, cls)) <==> (r == r2 || A.MarkOf(r) != A.MarkOf(r2))
  {
    if r == r2 || A.MarkOf(r) != A.MarkOf(r2) {
      hide *;
      forall g, g2, cls ensures Harmless(c, r, r2, g, g2, cls) { NoticedOrSame(c, r, r2, g, g2, cls); }
    } else {
      if r.t == r2.t { TauTells(c, r.sigma, r2.sigma); }
      hide *;
      var g, g2, cls := Harmful(c, r, r2, place, x, y);
    }
  }

  lemma NoticedOrSame(c: A.Tuning, r: A.Reading, r2: A.Reading, g: seq<Vote>, g2: seq<Vote>, cls: seq<A.Cluster>)
    requires Linking.ValidRules(c.link) && (r == r2 || A.MarkOf(r) != A.MarkOf(r2))
    ensures Harmless(c, r, r2, g, g2, cls)
  {
    hide A.ExtractionOf, A.MarkOf;
    if Reread(g, g2, r, r2) && A.Signature(g) == A.Signature(g2) && A.ExtractionOf(c, g, cls) {
      A.SameMarks(g, g2);
      assert r == r2;
      assert A.Alike(g, g2);
      var sol := A.AlikeExtraction(c, g, g2, cls);
      ReproducedSources(cls, sol);
    }
  }

  lemma ReproducedSources(cls: seq<A.Cluster>, sol: seq<A.Cluster>)
    requires A.Reproduces(cls, sol)
    ensures SameSources(cls, sol)
  {
    hide A.Alike, A.KeySeq;
    forall k | 0 <= k < |cls| ensures SameOrigin(cls[k], sol[k]) {
      assert A.SameSource(cls[k], sol[k]);
      A.AlikeKeys(cls[k].votes, sol[k].votes);
    }
  }

  /** Deviations are told apart by the tolerances they give. */
  lemma TauTells(c: A.Tuning, a: real, b: real)
    requires A.ValidTuning(c) && RootsDiffer(c.link.travel) && a >= 0.0 && b >= 0.0 && a != b
    ensures Linking.Tau(c.link, a) != Linking.Tau(c.link, b)
  {
    var m := c.link.sigmaModel;
    if a < b { MoreSquare(a, b); } else { MoreSquare(b, a); }
    MoreSquare(0.0, m);
    var u, v := a * a + m * m, b * b + m * m;
    assert u != v && u >= 0.0 && v >= 0.0;
    if Linking.Tau(c.link, a) == Linking.Tau(c.link, b) {
      SameScaled(c.link.residualK, c.link.travel.sqrt(u), c.link.travel.sqrt(v));
    }
  }

  lemma MoreSquare(a: real, b: real)
    requires 0.0 <= a < b
    ensures 0.0 <= a * a < b * b
  {
    ProductNotNegative(a, a);
    ProductPositive(b - a, b + a);
    assert (b - a) * (b + a) == b * b - a * a;
  }

  lemma Harmful(c: A.Tuning, r: A.Reading, r2: A.Reading, place: (real, real), x: real, y: real)
    returns (g: seq<Vote>, g2: seq<Vote>, cls: seq<A.Cluster>)
    requires A.ValidTuning(c) && Linking.ValidRules(c.link) && LateS(c.link.travel) && A.MarkOf(r) == A.MarkOf(r2)
    requires Separable(c.link.travel, ObsAt(c, place, r), ObsAt(c, place, r2), x, y)
    requires r.t != r2.t || Linking.Tau(c.link, r.sigma) != Linking.Tau(c.link, r2.sigma)
    ensures !Harmless(c, r, r2, g, g2, cls)
  {
    hide *;
    var q := StaleSolution(c, place, r, r2, x, y);
    var w := VoteAt(q.key, place, q.t, q.sigma);
    g, g2 := [VoteAt(r.key, place, r.t, r.sigma), w], [VoteAt(r2.key, place, r2.t, r2.sigma), w];
    ReadPair(g, g2, place, r, r2, q);
    cls := TwinExtraction(c, g);
    assert Stale(c, g, g2, cls);
    HarmfulIs(c, r, r2, g, g2, cls);
  }

  lemma ReadPair(g: seq<Vote>, g2: seq<Vote>, place: (real, real), r: A.Reading, r2: A.Reading, q: A.Reading)
    requires var w := VoteAt(q.key, place, q.t, q.sigma);
             g == [VoteAt(r.key, place, r.t, r.sigma), w] && g2 == [VoteAt(r2.key, place, r2.t, r2.sigma), w]
    ensures ReadAs(g, place, r, q) && ReadAs(g2, place, r2, q) && TwinVotes(g) && Reread(g, g2, r, r2)
  {
    assert RereadAt(g, g2, r, r2, 0);
  }

  lemma HarmfulIs(c: A.Tuning, r: A.Reading, r2: A.Reading, g: seq<Vote>, g2: seq<Vote>, cls: seq<A.Cluster>)
    requires Linking.ValidRules(c.link) && Reread(g, g2, r, r2) && A.ExtractionOf(c, g, cls) && Stale(c, g, g2, cls)
    ensures !Harmless(c, r, r2, g, g2, cls)
  {
    hide Reread, A.ExtractionOf, A.Signature, SourcesKept;
  }
}
