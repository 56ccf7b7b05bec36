/**
 The point-source locator: evaluation of one epicentre (sweep, least-squares refinement,
 Epanechnikov score), classification of the observations, and the two-level grid search.
 */
module Locator {
  import opened Basics
  import opened Sorting
  import opened TravelTimes
  import opened IntervalSweep

  // ---------------------------------------------------------------------
  // Scores
  // ---------------------------------------------------------------------

  /** The phase that fits better: S only when strictly closer. */
  predicate PrefersS(c: Config, x: real, y: real, o: Obs, t: real)
    requires ValidConfig(c)
  {
    Abs(SOrigin(c, x, y, o) - t) < Abs(POrigin(c, x, y, o) - t)
  }

  function ChosenOrigin(c: Config, x: real, y: real, o: Obs, t: real): real
    requires ValidConfig(c)
  {
    if PrefersS(c, x, y, o, t) then SOrigin(c, x, y, o) else POrigin(c, x, y, o)
  }

  /** 1 - (r / tau)^2 */
  function Kernel(r: real, tau: real): real
    requires tau > 0.0
  {
    1.0 - (r / tau) * (r / tau)
  }

  /** The robust score of origin time t: the kernel summed over the consistent observations. */
  function Score(c: Config, x: real, y: real, obs: seq<Obs>, t: real): real
    requires ValidConfig(c) && Tolerant(obs)
  {
    if obs == [] then 0.0
    else
      var n := |obs| - 1;
      var o := obs[n];
      Score(c, x, y, obs[..n], t)
      + if Consistent(c, x, y, o, t) then Kernel(ChosenOrigin(c, x, y, o, t) - t, o.tau) else 0.0
  }

  /** An inlier's chosen phase: its implied origin time and tolerance. */
  datatype Pick = Pick(at: real, tau: real)

  predicate Positive(ps: seq<Pick>) { forall p :: p in ps ==> p.tau > 0.0 }

  function Picks(c: Config, x: real, y: real, obs: seq<Obs>, t: real): (r: seq<Pick>)
    requires ValidConfig(c) && Tolerant(obs)
    ensures Positive(r)
  {
    if obs == [] then []
    else
      var n := |obs| - 1;
      var o := obs[n];
      assert o in obs;
      Picks(c, x, y, obs[..n], t)
      + if Consistent(c, x, y, o, t) then [Pick(ChosenOrigin(c, x, y, o, t), o.tau)] else []
  }

  /** The kernel sum with the phases frozen. */
  function Frozen(ps: seq<Pick>, t: real): real
    requires Positive(ps)
  {
    if ps == [] then 0.0
    else
      assert ps[|ps| - 1] in ps;
      Frozen(ps[..|ps| - 1], t) + Kernel(ps[|ps| - 1].at - t, ps[|ps| - 1].tau)
  }

  function WeightSum(ps: seq<Pick>): (r: real)
    requires Positive(ps)
    ensures r >= 0.0 && (ps != [] ==> r > 0.0)
  {
    if ps == [] then 0.0
    else
      assert ps[|ps| - 1] in ps;
      var tau := ps[|ps| - 1].tau;
      assert tau * tau > 0.0;
      WeightSum(ps[..|ps| - 1]) + 1.0 / (tau * tau)
  }

  function Moment(ps: seq<Pick>): real
    requires Positive(ps)
  {
    if ps == [] then 0.0
    else
      assert ps[|ps| - 1] in ps;
      var p := ps[|ps| - 1];
      assert p.tau * p.tau > 0.0;
      Moment(ps[..|ps| - 1]) + 1.0 / (p.tau * p.tau) * p.at
  }

  function SquareSum(ps: seq<Pick>, t: real): (r: real)
    ensures r >= 0.0
  {
    if ps == [] then 0.0
    else
      var r := ps[|ps| - 1].at - t;
      assert r * r >= 0.0;
      SquareSum(ps[..|ps| - 1], t) + r * r
  }

  // ---------------------------------------------------------------------
  // The refinement never lowers the score and never empties the inlier set
  // ---------------------------------------------------------------------

  lemma {:induction false} ScoreIsFrozen(c: Config, x: real, y: real, obs: seq<Obs>, t: real)
    requires ValidConfig(c) && Tolerant(obs)
    ensures Score(c, x, y, obs, t) == Frozen(Picks(c, x, y, obs, t), t)
  {
    hide Kernel, Hypo;
    if obs != [] {
      var n := |obs| - 1;
      ScoreIsFrozen(c, x, y, obs[..n], t);
      var ps := Picks(c, x, y, obs[..n], t);
      if Consistent(c, x, y, obs[n], t) {
        var q := Picks(c, x, y, obs, t);
        assert q[..|q| - 1] == ps;
      } else {
        assert Picks(c, x, y, obs, t) == ps;
      }
    }
  }

  lemma KernelExpand(at: real, tau: real, t: real)
    requires tau > 0.0
    ensures tau * tau > 0.0
    ensures var w := 1.0 / (tau * tau);
            Kernel(at - t, tau) == Kernel(at, tau) + 2.0 * t * (w * at) - t * t * w
  {
    assert tau * tau > 0.0;
    var w, u := 1.0 / (tau * tau), 1.0 / tau;
    assert u * tau == 1.0;
    assert w == u * u by {
      assert (u * u) * (tau * tau) == (u * tau) * (u * tau) == 1.0;
    }
    var r := at - t;
    assert r / tau == r * u && at / tau == at * u;
    assert (r * u) * (r * u) == (r * r) * w;
    assert (at * u) * (at * u) == (at * at) * w;
    assert (r * r) * w == (at * at - 2.0 * t * at + t * t) * w;
  }

  /** With frozen phases the score is a downward parabola in the origin time. */
  lemma {:induction false} FrozenParabola(ps: seq<Pick>, t: real)
    requires Positive(ps)
    ensures Frozen(ps, t) == Frozen(ps, 0.0) + 2.0 * t * Moment(ps) - t * t * WeightSum(ps)
  {
    if ps != [] {
      var p, rest := ps[|ps| - 1], ps[..|ps| - 1];
      assert p in ps;
      FrozenParabola(rest, t);
      KernelExpand(p.at, p.tau, t);
      var w := 1.0 / (p.tau * p.tau);
      assert 2.0 * t * (Moment(rest) + w * p.at) == 2.0 * t * Moment(rest) + 2.0 * t * (w * p.at);
      assert t * t * (WeightSum(rest) + w) == t * t * WeightSum(rest) + t * t * w;
    }
  }

  /** The weighted mean is the top of the parabola. */
  lemma RefinedIsBest(ps: seq<Pick>, t: real)
    requires Positive(ps) && ps != []
    ensures Frozen(ps, t) <= Frozen(ps, Moment(ps) / WeightSum(ps))
  {
    var w, m := WeightSum(ps), Moment(ps);
    var b := m / w;
    assert m == b * w;
    FrozenParabola(ps, t);
    FrozenParabola(ps, b);
    assert (2.0 * b * (b * w) - b * b * w) - (2.0 * t * (b * w) - t * t * w) == w * ((b - t) * (b - t));
    assert (b - t) * (b - t) >= 0.0;
    assert w * ((b - t) * (b - t)) >= 0.0;
  }

  lemma KernelSign(r: real, tau: real)
    requires tau > 0.0
    ensures Abs(r) <= tau <==> Kernel(r, tau) >= 0.0
  {
    var q := Abs(r) / tau;
    assert q * tau == Abs(r);
    assert (r / tau) * (r / tau) == q * q by {
      if r < 0.0 { assert r / tau == -q; }
    }
    if Abs(r) <= tau {
      assert 0.0 <= q <= 1.0;
      assert q * q <= 1.0;
    } else {
      assert q > 1.0;
      assert q * q > 1.0;
    }
  }

  lemma KernelMonotone(r: real, s: real, tau: real)
    requires tau > 0.0 && Abs(r) <= Abs(s)
    ensures Kernel(s, tau) <= Kernel(r, tau)
  {
    var a, b := Abs(r) / tau, Abs(s) / tau;
    assert (r / tau) * (r / tau) == a * a by { if r < 0.0 { assert r / tau == -a; } }
    assert (s / tau) * (s / tau) == b * b by { if s < 0.0 { assert s / tau == -b; } }
    assert 0.0 <= a <= b;
    assert a * a <= b * b;
  }

  /** The real score is never below the score with another hypothesis's phases frozen. */
  lemma {:induction false} ScoreAboveFrozen(c: Config, x: real, y: real, obs: seq<Obs>, t0: real, t: real)
    requires ValidConfig(c) && Tolerant(obs)
    ensures Frozen(Picks(c, x, y, obs, t0), t) <= Score(c, x, y, obs, t)
    ensures Consistents(c, x, y, obs, t) == {} ==>
              Score(c, x, y, obs, t) == 0.0
              && (Picks(c, x, y, obs, t0) != [] ==> Frozen(Picks(c, x, y, obs, t0), t) < 0.0)
  {
    hide Kernel, Hypo;
    if obs != [] {
      var n := |obs| - 1;
      var o, rest := obs[n], obs[..n];
      assert o in obs;
      ScoreAboveFrozen(c, x, y, rest, t0, t);
      assert Consistents(c, x, y, obs, t)
          == Consistents(c, x, y, rest, t) + if Consistent(c, x, y, o, t) then {n} else {};
      var ps, qs := Picks(c, x, y, rest, t0), Picks(c, x, y, obs, t0);
      var a, b := ChosenOrigin(c, x, y, o, t0) - t, ChosenOrigin(c, x, y, o, t) - t;
      assert Abs(b) <= Abs(a);
      KernelMonotone(b, a, o.tau);
      KernelSign(a, o.tau);
      KernelSign(b, o.tau);
      if Consistent(c, x, y, o, t0) {
        assert qs[..|qs| - 1] == ps;
      } else {
        assert qs == ps;
      }
    }
  }

  lemma {:induction false} PickCount(c: Config, x: real, y: real, obs: seq<Obs>, t: real)
    requires ValidConfig(c) && Tolerant(obs)
    ensures |Picks(c, x, y, obs, t)| == |Consistents(c, x, y, obs, t)|
  {
    if obs == [] {
      assert Consistents(c, x, y, obs, t) == {};
    } else {
      var n := |obs| - 1;
      PickCount(c, x, y, obs[..n], t);
      assert Consistents(c, x, y, obs, t)
          == Consistents(c, x, y, obs[..n], t) + if Consistent(c, x, y, obs[n], t) then {n} else {};
    }
  }

  /**
   The refinement step: moving from t to the weighted mean of its inliers' chosen phases never
   lowers the score, and leaves at least one observation consistent.
   */
  lemma RefinementImproves(c: Config, x: real, y: real, obs: seq<Obs>, t: real)
    requires ValidConfig(c) && Tolerant(obs) && Consistents(c, x, y, obs, t) != {}
    ensures var ps := Picks(c, x, y, obs, t);
            ps != []
            && Score(c, x, y, obs, t) <= Score(c, x, y, obs, Moment(ps) / WeightSum(ps))
            && Consistents(c, x, y, obs, Moment(ps) / WeightSum(ps)) != {}
  {
    PickCount(c, x, y, obs, t);
    var ps := Picks(c, x, y, obs, t);
    var b := Moment(ps) / WeightSum(ps);
    ScoreIsFrozen(c, x, y, obs, t);
    ScoreNonNegative(c, x, y, obs, t);
    RefinedIsBest(ps, t);
    ScoreAboveFrozen(c, x, y, obs, t, b);
  }

  lemma ScoreNonNegative(c: Config, x: real, y: real, obs: seq<Obs>, t: real)
    requires ValidConfig(c) && Tolerant(obs)
    ensures Score(c, x, y, obs, t) >= 0.0
  {
    hide Kernel, Hypo;
    if obs != [] {
      var o := obs[|obs| - 1];
      assert o in obs;
      ScoreNonNegative(c, x, y, obs[..|obs| - 1], t);
      KernelSign(ChosenOrigin(c, x, y, o, t) - t, o.tau);
    }
  }

  // ---------------------------------------------------------------------
  // One grid node
  // ---------------------------------------------------------------------

  lemma PicksStep(c: Config, x: real, y: real, obs: seq<Obs>, t: real, k: nat)
    requires ValidConfig(c) && Tolerant(obs) && k < |obs|
    ensures Tolerant(obs[..k]) && Tolerant(obs[..k + 1])
    ensures var o, ps := obs[k], Picks(c, x, y, obs[..k], t);
            Picks(c, x, y, obs[..k + 1], t)
            == if Consistent(c, x, y, o, t) then ps + [Pick(ChosenOrigin(c, x, y, o, t), o.tau)] else ps
    ensures var o := obs[k];
            Score(c, x, y, obs[..k + 1], t) == Score(c, x, y, obs[..k], t)
              + if Consistent(c, x, y, o, t) then Kernel(ChosenOrigin(c, x, y, o, t) - t, o.tau) else 0.0
  {
    assert obs[..k + 1][..k] == obs[..k];
  }

  lemma SumsStep(ps: seq<Pick>, p: Pick, t: real)
    requires Positive(ps) && p.tau > 0.0
    ensures Positive(ps + [p]) && p.tau * p.tau > 0.0
    ensures WeightSum(ps + [p]) == WeightSum(ps) + 1.0 / (p.tau * p.tau)
    ensures Moment(ps + [p]) == Moment(ps) + 1.0 / (p.tau * p.tau) * p.at
    ensures SquareSum(ps + [p], t) == SquareSum(ps, t) + (p.at - t) * (p.at - t)
  {
    assert p.tau * p.tau > 0.0;
    var q := ps + [p];
    assert q[..|q| - 1] == ps && q[|q| - 1] == p;
    assert Positive(q);
    hide Positive;
    assert WeightSum(q) == WeightSum(ps) + 1.0 / (p.tau * p.tau) by { hide Moment, SquareSum; }
    assert Moment(q) == Moment(ps) + 1.0 / (p.tau * p.tau) * p.at by { hide WeightSum, SquareSum; }
    hide WeightSum, Moment;
  }

  /** The phase with the smaller residual is the preferred one, and its residual decides consistency. */
  lemma Nearer(c: Config, x: real, y: real, o: Obs, t0: real, r: real)
    requires ValidConfig(c) && r == Hypo(c, x, y, o)
    ensures var rp, rs := o.t - (t0 + r / c.vp), o.t - (t0 + r / c.vs);
            var s := Abs(rs) < Abs(rp);
            && (PrefersS(c, x, y, o, t0) <==> s)
            && (Consistent(c, x, y, o, t0) <==> Abs(if s then rs else rp) <= o.tau)
            && ChosenOrigin(c, x, y, o, t0) == o.t - r / (if s then c.vs else c.vp)
            && rp == POrigin(c, x, y, o) - t0 && rs == SOrigin(c, x, y, o) - t0
            && (if s then rs else rp) == ChosenOrigin(c, x, y, o, t0) - t0
  {
    hide Hypo;
  }

  /** Another pick's part in the sums, its residual given. */
  lemma SumsWith(ps: seq<Pick>, p: Pick, t: real, res: real)
    requires Positive(ps) && p.tau > 0.0 && res == p.at - t
    ensures Positive(ps + [p]) && p.tau * p.tau > 0.0
    ensures WeightSum(ps + [p]) == WeightSum(ps) + 1.0 / (p.tau * p.tau)
    ensures Moment(ps + [p]) == Moment(ps) + 1.0 / (p.tau * p.tau) * p.at
    ensures SquareSum(ps + [p], t) == SquareSum(ps, t) + res * res
  {
    hide Positive, WeightSum, Moment, SquareSum;
    SumsStep(ps, p, t);
    SameSquare(p.at - t, res);
  }

  lemma SameSquare(a: real, b: real)
    requires a == b
    ensures a * a == b * b
  {
  }

  lemma EmptySums(c: Config, x: real, y: real, t: real)
    requires ValidConfig(c)
    ensures Picks(c, x, y, [], t) == [] && WeightSum([]) == 0.0 && Moment([]) == 0.0 && SquareSum([], t) == 0.0
    ensures Score(c, x, y, [], t) == 0.0
  {
  }

  /** One pass over the observations: the inliers of t0 and their weighted sums. */
  method Inliers(c: Config, obs: seq<Obs>, x: real, y: real, t0: real) returns (n: nat, sw: real, swt: real, ss: real)
    requires ValidConfig(c) && Tolerant(obs)
    ensures n == |Consistents(c, x, y, obs, t0)| == |Picks(c, x, y, obs, t0)|
    ensures sw == WeightSum(Picks(c, x, y, obs, t0)) && swt == Moment(Picks(c, x, y, obs, t0))
    ensures ss == SquareSum(Picks(c, x, y, obs, t0), t0)
  {
    hide Picks, WeightSum, Moment, SquareSum, Consistents, Hypo, Kernel, Score, Positive, Consistent, ChosenOrigin;
    n, sw, swt, ss := 0, 0.0, 0.0, 0.0;
    EmptySums(c, x, y, t0);
    assert obs[..0] == [];
    for k := 0 to |obs|
      invariant Tolerant(obs[..k])
      invariant var ps := Picks(c, x, y, obs[..k], t0);
                n == |ps| && sw == WeightSum(ps) && swt == Moment(ps) && ss == SquareSum(ps, t0)
    {
      var o := obs[k];
      PicksStep(c, x, y, obs, t0, k);
      assert o in obs;
      var r := Hypo(c, x, y, o);
      Nearer(c, x, y, o, t0, r);
      var rp, rs := o.t - (t0 + r / c.vp), o.t - (t0 + r / c.vs);
      var res, v := rp, c.vp;
      if Abs(rs) < Abs(rp) {
        res, v := rs, c.vs;
      }
      if Abs(res) <= o.tau {
        var at := o.t - r / v;
        SumsWith(Picks(c, x, y, obs[..k], t0), Pick(at, o.tau), t0, res);
        var w := 1.0 / (o.tau * o.tau);
        sw := sw + w;
        swt := swt + w * at;
        ss := ss + res * res;
        n := n + 1;
      }
    }
    assert obs[..|obs|] == obs;
    PickCount(c, x, y, obs, t0);
  }

  method NodeScore(c: Config, obs: seq<Obs>, x: real, y: real, t0: real) returns (score: real)
    requires ValidConfig(c) && Tolerant(obs)
    ensures score == Score(c, x, y, obs, t0)
  {
    hide Picks, Hypo, Consistent, ChosenOrigin;
    score := 0.0;
    for k := 0 to |obs|
      invariant Tolerant(obs[..k]) && score == Score(c, x, y, obs[..k], t0)
    {
      var o := obs[k];
      PicksStep(c, x, y, obs, t0, k);
      assert o in obs;
      var r := Hypo(c, x, y, o);
      Nearer(c, x, y, o, t0, r);
      var ap, aS := Abs(o.t - (t0 + r / c.vp)), Abs(o.t - (t0 + r / c.vs));
      var res := if aS < ap then aS else ap;
      if res <= o.tau {
        score := score + 1.0 - (res / o.tau) * (res / o.tau);
        KernelOfAbs(ChosenOrigin(c, x, y, o, t0) - t0, o.tau);
      }
    }
    assert obs[..|obs|] == obs;
  }

  /**
   Evaluates one epicentre. The sweep's origin time (bestAt) is consistent with as many observations as any
   real origin time can be; the refined t0 scores no lower, keeps at least one inlier, and n and score are
   those of t0.
   */
  method EvalNode(c: Config, obs: seq<Obs>, x: real, y: real, cover: array<int>)
    returns (n: nat, t0: real, rms: real, score: real, ghost bestAt: real)
    requires ValidConfig(c) && Tolerant(obs) && cover.Length == |obs|
    modifies cover
    ensures n == |Consistents(c, x, y, obs, t0)| && score == Score(c, x, y, obs, t0)
    ensures forall t :: |Consistents(c, x, y, obs, t)| <= |Consistents(c, x, y, obs, bestAt)|
    ensures Score(c, x, y, obs, bestAt) <= score
    ensures obs != [] ==> n >= 1
    ensures n >= 1 ==> RefinedFrom(c, x, y, obs, bestAt, t0, rms, n)
  {
    hide Picks, Score, Consistents, WeightSum, Moment, SquareSum, Intervals;
    var iv := Sort(Intervals(c, x, y, obs), Before);
    SortSorted(Intervals(c, x, y, obs), Before);
    var best, at := Sweep(iv, cover, c, x, y, obs);
    bestAt := at;
    t0 := at;
    ghost var ps := Picks(c, x, y, obs, at);
    if obs != [] { SomethingConsistent(c, x, y, obs); }
    var sw, swt, ss;
    n, sw, swt, ss := Inliers(c, obs, x, y, t0);
    if n == 0 {
      EmptySums(c, x, y, t0);
      return 0, t0, 0.0, 0.0, bestAt;
    }
    RefinementImproves(c, x, y, obs, at);
    t0 := swt / sw;
    n, sw, swt, ss := Inliers(c, obs, x, y, t0);
    rms := c.sqrt(ss / n as real);
    score := NodeScore(c, obs, x, y, t0);
  }

  lemma KernelOfAbs(r: real, tau: real)
    requires tau > 0.0
    ensures Kernel(Abs(r), tau) == Kernel(r, tau)
  {
    KernelMonotone(r, Abs(r), tau);
    KernelMonotone(Abs(r), r, tau);
  }

  /** Any observation alone is consistent with some origin time. */
  lemma SomethingConsistent(c: Config, x: real, y: real, obs: seq<Obs>)
    requires ValidConfig(c) && Tolerant(obs) && obs != []
    ensures exists t :: |Consistents(c, x, y, obs, t)| >= 1
  {
    assert obs[0] in obs;
    assert 0 in Consistents(c, x, y, obs, POrigin(c, x, y, obs[0]));
  }

  // ---------------------------------------------------------------------
  // Classification
  // ---------------------------------------------------------------------

  datatype Phase = P | S | Unassigned

  datatype Fit = Fit(x: real, y: real, originT: real, inlier: seq<bool>, phase: seq<Phase>, residual: seq<real>,
                     hypo: seq<real>, nInliers: nat, rms: real, locUnc: real, nodes: nat, halfWidth: real)

  /** The per-observation arrays of f say exactly which observations its hypothesis explains, and how. */
  ghost predicate Classified(c: Config, obs: seq<Obs>, f: Fit)
    requires ValidConfig(c)
  {
    && |f.inlier| == |f.phase| == |f.residual| == |f.hypo| == |obs|
    && f.nInliers == |Consistents(c, f.x, f.y, obs, f.originT)|
    && forall i :: 0 <= i < |obs| ==> ClassifiedAt(c, obs[i], f, f.inlier[i], f.phase[i], f.residual[i], f.hypo[i])
  }

  predicate ClassifiedAt(c: Config, o: Obs, f: Fit, inlier: bool, phase: Phase, residual: real, hypo: real)
    requires ValidConfig(c)
  {
    && hypo == Hypo(c, f.x, f.y, o)
    && inlier == Consistent(c, f.x, f.y, o, f.originT)
    && (inlier ==> Abs(residual) <= o.tau
                   && residual == (if phase == S then SOrigin(c, f.x, f.y, o) else POrigin(c, f.x, f.y, o)) - f.originT
                   && phase == if PrefersS(c, f.x, f.y, o, f.originT) then S else P)
    && (!inlier ==> residual == 0.0 && phase == Unassigned)
  }

  /** Fills the per-observation arrays for the hypothesis already in f0. */
  method Classify(c: Config, obs: seq<Obs>, f0: Fit) returns (f: Fit)
    requires ValidConfig(c) && Tolerant(obs)
    ensures f
            == f0.(inlier := f.inlier, phase := f.phase, residual := f.residual, hypo := f.hypo, nInliers := f.nInliers)
    ensures Classified(c, obs, f)
  {
    hide Hypo, Picks, Score, Kernel, Consistents, Consistent, ChosenOrigin, POrigin, SOrigin, PrefersS;
    EmptySums(c, f0.x, f0.y, f0.originT);
    assert obs[..0] == [];
    var inlier, phase := new bool[|obs|](_ => false), new Phase[|obs|](_ => Unassigned);
    var residual, hypo := new real[|obs|](_ => 0.0), new real[|obs|](_ => 0.0);
    var n := 0;
    for i := 0 to |obs|
      invariant Tolerant(obs[..i]) && n == |Picks(c, f0.x, f0.y, obs[..i], f0.originT)|
      invariant forall k :: i <= k < |obs| ==> !inlier[k] && phase[k] == Unassigned && residual[k] == 0.0
      invariant forall k :: 0 <= k < i ==> ClassifiedAt(c, obs[k], f0, inlier[k], phase[k], residual[k], hypo[k])
    {
      var o := obs[i];
      PicksStep(c, f0.x, f0.y, obs, f0.originT, i);
      var r := Hypo(c, f0.x, f0.y, o);
      hypo[i] := r;
      Nearer(c, f0.x, f0.y, o, f0.originT, r);
      var rp, rs := o.t - (f0.originT + r / c.vp), o.t - (f0.originT + r / c.vs);
      var res, ph := rp, P;
      if Abs(rs) < Abs(rp) {
        res, ph := rs, S;
      }
      if Abs(res) <= o.tau {
        inlier[i], phase[i], residual[i], n := true, ph, res, n + 1;
      }
    }
    assert obs[..|obs|] == obs;
    PickCount(c, f0.x, f0.y, obs, f0.originT);
    f := f0.(inlier := inlier[..], phase := phase[..], residual := residual[..], hypo := hypo[..], nInliers := n);
  }

  // ---------------------------------------------------------------------
  // Grid search
  // ---------------------------------------------------------------------

  datatype Node = Node(x: real, y: real, t0: real, rms: real, score: real, n: nat)

  function Distance(c: Config, dx: real, dy: real): real { c.sqrt(dx * dx + dy * dy) }

  /** t0 is the weighted mean origin time of the picks consistent with `at`, rms the misfit of those of t0. */
  ghost predicate RefinedFrom(c: Config, x: real, y: real, obs: seq<Obs>, at: real, t0: real, rms: real, n: nat)
    requires ValidConfig(c) && Tolerant(obs)
  {
    var ps := Picks(c, x, y, obs, at);
    n > 0 && ps != [] && t0 == Moment(ps) / WeightSum(ps)
    && rms == c.sqrt(SquareSum(Picks(c, x, y, obs, t0), t0) / n as real)
  }

  /** The node's t0 is refined from a best-covered time, which scores no higher; count and score are those of t0. */
  ghost predicate Evaluated(c: Config, obs: seq<Obs>, d: Node)
    requires ValidConfig(c) && Tolerant(obs)
  {
    && d.n == |Consistents(c, d.x, d.y, obs, d.t0)|
    && d.score == Score(c, d.x, d.y, obs, d.t0)
    && (obs != [] ==> d.n >= 1)
    && exists at :: RefinesCover(c, obs, d, at)
  }

  ghost predicate RefinesCover(c: Config, obs: seq<Obs>, d: Node, at: real)
    requires ValidConfig(c) && Tolerant(obs)
  {
    && BestCovered(c, obs, d.x, d.y, at) && Score(c, d.x, d.y, obs, at) <= d.score
    && (d.n >= 1 ==> RefinedFrom(c, d.x, d.y, obs, at, d.t0, d.rms, d.n))
  }

  /** No real origin time is consistent with more observations than `at`. */
  ghost predicate BestCovered(c: Config, obs: seq<Obs>, x: real, y: real, at: real)
    requires ValidConfig(c)
  {
    forall t :: |Consistents(c, x, y, obs, t)| <= |Consistents(c, x, y, obs, at)|
  }

  ghost predicate HasNode(nodes: seq<Node>, x: real, y: real) {
    exists k :: 0 <= k < |nodes| && nodes[k].x == x && nodes[k].y == y
  }

  function GridAt(origin: real, half: real, step: real, i: nat): real { origin - half + i as real * step }

  /** best is the first node with the largest score. */
  ghost predicate BestOf(nodes: seq<Node>, best: Node) {
    exists k :: FirstBest(nodes, best, k)
  }

  ghost predicate FirstBest(nodes: seq<Node>, best: Node, k: nat) {
    && k < |nodes| && nodes[k] == best
    && (forall i :: 0 <= i < k ==> nodes[i].score < best.score)
    && forall i :: k <= i < |nodes| ==> nodes[i].score <= best.score
  }

  ghost predicate AllEvaluated(c: Config, obs: seq<Obs>, nodes: seq<Node>)
    requires ValidConfig(c) && Tolerant(obs)
  {
    forall d :: d in nodes ==> Evaluated(c, obs, d)
  }

  /** All nodes are properly evaluated and best is the first one with the largest score (or there is none yet). */
  ghost predicate Searched(c: Config, obs: seq<Obs>, nodes: seq<Node>, best: Node)
    requires ValidConfig(c) && Tolerant(obs)
  {
    AllEvaluated(c, obs, nodes) && if nodes == [] then best.score < 0.0 else BestOf(nodes, best)
  }

  /** The nodes hold the first i full rows of the grid, the first j cells of the next row, and nothing off the grid. */
  ghost predicate Covers(nodes: seq<Node>, g: nat, ox: real, oy: real, half: real, step: real, i: nat, j: nat) {
    && (forall a: nat, b: nat :: (a < i && b < g) || (a == i && b < j) ==>
          HasNode(nodes, GridAt(ox, half, step, a), GridAt(oy, half, step, b)))
    && forall k :: 0 <= k < |nodes| ==> OnGrid(nodes[k], g, ox, oy, half, step)
  }

  ghost predicate OnGrid(d: Node, g: nat, ox: real, oy: real, half: real, step: real) {
    exists a: nat, b: nat :: a < g && b < g && d.x == GridAt(ox, half, step, a) && d.y == GridAt(oy, half, step, b)
  }

  /** The spacing of a grid of this half-width. */
  function StepOf(c: Config, half: real): real
    requires ValidConfig(c)
  {
    2.0 * half / (c.gridNodes - 1) as real
  }

  /** The nodes are exactly the points of the square grid around (ox, oy). */
  ghost predicate GridNodes(c: Config, nodes: seq<Node>, ox: real, oy: real, half: real)
    requires ValidConfig(c)
  {
    |nodes| == c.gridNodes * c.gridNodes
    && Covers(nodes, c.gridNodes, ox, oy, half, StepOf(c, half), c.gridNodes, 0)
  }

  lemma AppendNode(c: Config, obs: seq<Obs>, nodes: seq<Node>, best: Node, d: Node)
    requires ValidConfig(c) && Tolerant(obs)
    requires Searched(c, obs, nodes, best) && Evaluated(c, obs, d) && d.score >= 0.0
    ensures Searched(c, obs, nodes + [d], if d.score > best.score then d else best)
  {
    hide Evaluated;
    var more := nodes + [d];
    if nodes == [] {
      assert FirstBest(more, d, 0);
    } else {
      var k :| FirstBest(nodes, best, k);
      if d.score > best.score {
        forall i | 0 <= i < |nodes| ensures nodes[i].score <= best.score {}
        assert FirstBest(more, d, |nodes|);
      } else {
        assert FirstBest(more, best, k);
      }
    }
  }

  lemma AppendCell(nodes: seq<Node>, g: nat, ox: real, oy: real, half: real, step: real, i: nat, j: nat, d: Node)
    requires Covers(nodes, g, ox, oy, half, step, i, j)
    requires i < g && j < g && d.x == GridAt(ox, half, step, i) && d.y == GridAt(oy, half, step, j)
    ensures Covers(nodes + [d], g, ox, oy, half, step, i, j + 1)
  {
    hide GridAt;
    assert OnGrid(d, g, ox, oy, half, step);
    hide OnGrid;
    var t := nodes + [d];
    assert t[|nodes|] == d;
    forall x, y | HasNode(nodes, x, y) ensures HasNode(t, x, y) {
      var k :| 0 <= k < |nodes| && nodes[k].x == x && nodes[k].y == y;
      assert t[k] == nodes[k];
    }
  }

  /** Evaluates one cell. */
  method Visit(c: Config, obs: seq<Obs>, x: real, y: real, cover: array<int>) returns (d: Node)
    requires ValidConfig(c) && Tolerant(obs) && cover.Length == |obs|
    modifies cover
    ensures d.x == x && d.y == y && Evaluated(c, obs, d) && d.score >= 0.0
  {
    hide Score, Consistents;
    var n, t0, rms, score, at := EvalNode(c, obs, x, y, cover);
    d := Node(x, y, t0, rms, score, n);
    hide RefinedFrom;
    assert RefinesCover(c, obs, d, at);
    ScoreNonNegative(c, x, y, obs, t0);
  }

  /** Evaluates a square grid around (ox, oy), appending its nodes and keeping the best-scoring one. */
  method Search(c: Config, obs: seq<Obs>, ox: real, oy: real, half: real, nodes0: seq<Node>, best0: Node,
                cover: array<int>)
    returns (step: real, nodes: seq<Node>, best: Node)
    requires ValidConfig(c) && Tolerant(obs) && cover.Length == |obs|
    requires Searched(c, obs, nodes0, best0)
    modifies cover
    ensures step == StepOf(c, half) && nodes0 <= nodes && Searched(c, obs, nodes, best)
    ensures GridNodes(c, nodes[|nodes0|..], ox, oy, half)
  {
    hide Searched, Covers, Evaluated;
    var g := c.gridNodes;
    step := 2.0 * half / (g - 1) as real;
    ghost var added := [];
    nodes, best := nodes0, best0;
    assert nodes == nodes0 + added;
    CoversRows(added, g, ox, oy, half, step, 0);
    for i := 0 to g
      invariant nodes == nodes0 + added && |added| == i * g
      invariant Searched(c, obs, nodes, best) && Covers(added, g, ox, oy, half, step, i, 0)
    {
      for j := 0 to g
        invariant nodes == nodes0 + added && |added| == i * g + j
        invariant Searched(c, obs, nodes, best) && Covers(added, g, ox, oy, half, step, i, j)
      {
        var d := Visit(c, obs, GridAt(ox, half, step, i), GridAt(oy, half, step, j), cover);
        AppendNode(c, obs, nodes, best, d);
        AppendCell(added, g, ox, oy, half, step, i, j, d);
        nodes, added := nodes + [d], added + [d];
        if d.score > best.score { best := d; }
      }
      CoversRows(added, g, ox, oy, half, step, i + 1);
    }
    assert nodes[|nodes0|..] == added;
  }

  /** A finished row counts as a whole row. */
  lemma CoversRows(nodes: seq<Node>, g: nat, ox: real, oy: real, half: real, step: real, i: nat)
    requires if i == 0 then nodes == [] else Covers(nodes, g, ox, oy, half, step, i - 1, g)
    ensures Covers(nodes, g, ox, oy, half, step, i, 0)
  {
    hide GridAt, HasNode, OnGrid;
  }

  /** Nodes scoring within one perfectly fitting observation (or 5 %) of the best. */
  predicate Admissible(d: Node, bestScore: real) { d.score >= bestScore - Max(1.0, 0.05 * bestScore) }

  function SumX(obs: seq<Obs>): real { if obs == [] then 0.0 else SumX(obs[..|obs| - 1]) + obs[|obs| - 1].x }

  function SumY(obs: seq<Obs>): real { if obs == [] then 0.0 else SumY(obs[..|obs| - 1]) + obs[|obs| - 1].y }

  /** How far a search around (cx, cy) must reach for an observation: 20 km beyond it. */
  function ReachFor(c: Config, cx: real, cy: real, o: Obs): real { Distance(c, o.x - cx, o.y - cy) + 20.0 }

  /** The search area: centred on the mean position, 20 km beyond the farthest observation, but at least the minimum. */
  ghost predicate AreaOf(c: Config, obs: seq<Obs>, cx: real, cy: real, half: real) {
    && obs != [] && cx == SumX(obs) / |obs| as real && cy == SumY(obs) / |obs| as real
    && half >= c.minSearch && (forall o :: o in obs ==> ReachFor(c, cx, cy, o) <= half)
    && (half == c.minSearch || exists o :: o in obs && half == ReachFor(c, cx, cy, o))
  }

  method SearchArea(c: Config, obs: seq<Obs>) returns (cx: real, cy: real, half: real)
    requires ValidConfig(c) && obs != []
    ensures AreaOf(c, obs, cx, cy, half)
  {
    hide ReachFor;
    cx, cy := 0.0, 0.0;
    for i := 0 to |obs|
      invariant cx == SumX(obs[..i]) && cy == SumY(obs[..i])
    {
      assert obs[..i + 1][..i] == obs[..i];
      cx, cy := cx + obs[i].x, cy + obs[i].y;
    }
    assert obs[..|obs|] == obs;
    cx, cy := cx / |obs| as real, cy / |obs| as real;
    half := c.minSearch;
    for i := 0 to |obs|
      invariant half >= c.minSearch
      invariant forall k :: 0 <= k < i ==> ReachFor(c, cx, cy, obs[k]) <= half
      invariant half == c.minSearch || exists o :: o in obs && half == ReachFor(c, cx, cy, o)
    {
      var d := ReachFor(c, cx, cy, obs[i]);
      assert obs[i] in obs;
      if d > half { half := d; }
    }
  }

  /** The farthest admissible node from the best one. */
  method Uncertainty(c: Config, nodes: seq<Node>, best: Node, floor: real) returns (unc: real)
    ensures UncertaintyOf(c, nodes, best.x, best.y, best.score, floor, unc)
  {
    hide Distance, Admissible;
    unc := floor;
    for k := 0 to |nodes|
      invariant unc >= floor
      invariant forall i :: 0 <= i < k && Admissible(nodes[i], best.score) ==>
                  Distance(c, nodes[i].x - best.x, nodes[i].y - best.y) <= unc
      invariant unc == floor
                || exists i :: 0 <= i < k && Admissible(nodes[i], best.score)
                               && unc == Distance(c, nodes[i].x - best.x, nodes[i].y - best.y)
    {
      if Admissible(nodes[k], best.score) {
        var d := Distance(c, nodes[k].x - best.x, nodes[k].y - best.y);
        if d > unc { unc := d; }
      }
    }
  }

  /**
   The nodes of a two-level search with half-width half: the grid around the mean position, then a grid one step wide
   around the best node of the first.
   */
  ghost predicate TwoGrids(c: Config, obs: seq<Obs>, half: real, nodes: seq<Node>)
    requires ValidConfig(c)
  {
    exists cx, cy, best1 :: TwoGridsAt(c, obs, half, nodes, cx, cy, best1)
  }

  ghost predicate TwoGridsAt(c: Config, obs: seq<Obs>, half: real, nodes: seq<Node>, cx: real, cy: real, best1: Node)
    requires ValidConfig(c)
  {
    var m := c.gridNodes * c.gridNodes;
    && AreaOf(c, obs, cx, cy, half) && m <= |nodes|
    && GridNodes(c, nodes[..m], cx, cy, half) && BestOf(nodes[..m], best1)
    && GridNodes(c, nodes[m..], best1.x, best1.y, StepOf(c, half))
  }

  /** The fit is the first best node of the two grids, with that node's origin time, count and misfit. */
  ghost predicate Located(c: Config, obs: seq<Obs>, f: Fit)
    requires ValidConfig(c) && Tolerant(obs)
  {
    exists nodes :: LocatedAmong(c, obs, f, nodes)
  }

  ghost predicate LocatedAmong(c: Config, obs: seq<Obs>, f: Fit, nodes: seq<Node>)
    requires ValidConfig(c) && Tolerant(obs)
  {
    && TwoGrids(c, obs, f.halfWidth, nodes) && AllEvaluated(c, obs, nodes) && f.nodes == |nodes|
    && exists d :: BestOf(nodes, d) && FitAt(f, d)
  }

  ghost predicate FitAt(f: Fit, d: Node) {
    f.x == d.x && f.y == d.y && f.originT == d.t0 && f.nInliers == d.n && f.rms == d.rms
  }

  /** The uncertainty is the distance of the farthest admissible node, and at least half a step of the finer grid. */
  ghost predicate UncertaintyOf(c: Config, nodes: seq<Node>, x: real, y: real, score: real, floor: real, unc: real) {
    && unc >= floor
    && (forall d :: d in nodes && Admissible(d, score) ==> Distance(c, d.x - x, d.y - y) <= unc)
    && (unc == floor || exists d :: d in nodes && Admissible(d, score) && unc == Distance(c, d.x - x, d.y - y))
  }

  /**
   The two-level grid search. The fit is the best-scoring of the 2 g^2 evaluated grid nodes, explains at least one
   observation, and its arrays classify every observation against that hypothesis.
   */
  method Locate(c: Config, obs: seq<Obs>) returns (f: Fit, ghost nodes: seq<Node>)
    requires ValidConfig(c) && Tolerant(obs) && obs != []
    ensures Classified(c, obs, f) && f.nInliers >= 1
    ensures LocatedAmong(c, obs, f, nodes) && Located(c, obs, f)
    ensures |nodes| == 2 * c.gridNodes * c.gridNodes
    ensures forall d :: d in nodes ==> d.score <= Score(c, f.x, f.y, obs, f.originT)
    ensures UncertaintyOf(c, nodes, f.x, f.y, Score(c, f.x, f.y, obs, f.originT),
                          StepOf(c, StepOf(c, f.halfWidth)) / 2.0, f.locUnc)
  {
    hide Score, Consistents, Covers, Distance, RefinesCover, AreaOf, BestOf, UncertaintyOf;
    var cx, cy, half := SearchArea(c, obs);
    var cover := new int[|obs|];
    var step1, nodes1, best1 := Search(c, obs, cx, cy, half, [], Node(0.0, 0.0, 0.0, 0.0, -1.0, 0), cover);
    assert nodes1[0..] == nodes1;
    assert nodes1 != [] by { assert c.gridNodes * c.gridNodes >= 4; }
    var step2, nodes2, best := Search(c, obs, best1.x, best1.y, step1, nodes1, best1, cover);
    assert nodes2[..|nodes1|] == nodes1;
    assert TwoGridsAt(c, obs, half, nodes2, cx, cy, best1);
    var unc := Uncertainty(c, nodes2, best, step2 / 2.0);
    nodes := nodes2;
    BestIs(nodes, best);
    f := Classify(c, obs, Fit(best.x, best.y, best.t0, [], [], [], [], 0, best.rms, unc, |nodes2|, half));
    assert best in nodes && Evaluated(c, obs, best);
    assert FitAt(f, best);
  }

  lemma BestIs(nodes: seq<Node>, best: Node)
    requires BestOf(nodes, best)
    ensures best in nodes && forall d :: d in nodes ==> d.score <= best.score
  {
  }

  const MAX_LOCATE_OBS := 250

  predicate Earlier(a: Obs, b: Obs) { a.t <= b.t }

  /** The m earliest arrivals, in arrival order. */
  method Earliest(obs: seq<Obs>, m: nat) returns (sub: seq<Obs>, ghost rest: seq<Obs>)
    requires m <= |obs|
    ensures |sub| == m && SortedBy(sub, Earlier)
    ensures multiset(sub) + multiset(rest) == multiset(obs)
    ensures forall a, b :: a in sub && b in rest ==> a.t <= b.t
  {
    hide Sort;
    var s := Sort(obs, Earlier);
    SortSorted(obs, Earlier);
    sub, rest := s[..m], s[m..];
    assert s == sub + rest;
    forall a, b | a in sub && b in rest ensures a.t <= b.t {
      var i :| 0 <= i < |sub| && sub[i] == a;
      var j :| 0 <= j < |rest| && rest[j] == b;
      assert Earlier(s[i], s[m + j]);
    }
  }

  /** The fit's origin time, count and misfit are those of its epicentre's evaluation on these observations. */
  ghost predicate AtNode(c: Config, obs: seq<Obs>, f: Fit)
    requires ValidConfig(c) && Tolerant(obs)
  {
    exists d :: Evaluated(c, obs, d) && FitAt(f, d)
  }

  /** sub holds the MAX_LOCATE_OBS earliest of the observations, in order of arrival. */
  ghost predicate EarliestOf(obs: seq<Obs>, sub: seq<Obs>, rest: seq<Obs>) {
    && |sub| == MAX_LOCATE_OBS && SortedBy(sub, Earlier) && multiset(sub) + multiset(rest) == multiset(obs)
    && forall a, b :: a in sub && b in rest ==> a.t <= b.t
  }

  /** The epicentre, its uncertainty and the search area are those located from the earliest arrivals. */
  ghost predicate FromEarliest(c: Config, obs: seq<Obs>, f: Fit)
    requires ValidConfig(c)
  {
    exists sub, rest, g :: EarliestOf(obs, sub, rest) && Tolerant(sub) && Located(c, sub, g) && SameEpicentre(f, g)
  }

  predicate SameEpicentre(f: Fit, g: Fit) {
    f.x == g.x && f.y == g.y && f.locUnc == g.locUnc && f.halfWidth == g.halfWidth && f.nodes == g.nodes
  }

  /** Where the source of a set of any size is put. */
  ghost predicate LocatedLarge(c: Config, obs: seq<Obs>, f: Fit)
    requires ValidConfig(c) && Tolerant(obs)
  {
    if |obs| <= MAX_LOCATE_OBS then Located(c, obs, f) else FromEarliest(c, obs, f) && AtNode(c, obs, f)
  }

  /**
   Large sets are located from their earliest arrivals; the origin time is then re-estimated from, and the
   arrays classify, every observation. Small sets are located as they are.
   */
  method LocateLarge(c: Config, obs: seq<Obs>) returns (f: Fit)
    requires ValidConfig(c) && Tolerant(obs) && obs != []
    ensures Classified(c, obs, f) && f.nInliers >= 1 && LocatedLarge(c, obs, f)
  {
    hide Score, Consistents, Evaluated, Located, LocatedAmong, RefinedFrom, UncertaintyOf;
    ghost var nodes;
    if |obs| <= MAX_LOCATE_OBS {
      f, nodes := Locate(c, obs);
      return;
    }
    var sub, rest := Earliest(obs, MAX_LOCATE_OBS);
    forall o | o in sub ensures o in obs { assert o in multiset(obs); }
    var g;
    g, nodes := Locate(c, sub);
    assert EarliestOf(obs, sub, rest);
    var cover := new int[|obs|];
    var n, t0, rms, score, at := EvalNode(c, obs, g.x, g.y, cover);
    NodeOfCover(c, obs, g.x, g.y, n, t0, rms, score, at);
    f := Classify(c, obs, g.(originT := t0, rms := rms));
    assert FitAt(f, Node(g.x, g.y, t0, rms, score, n));
    assert SameEpicentre(f, g);
  }

  lemma NodeOfCover(c: Config, obs: seq<Obs>, x: real, y: real, n: nat, t0: real, rms: real, score: real, at: real)
    requires ValidConfig(c) && Tolerant(obs) && obs != [] && n >= 1
    requires n == |Consistents(c, x, y, obs, t0)| && score == Score(c, x, y, obs, t0)
    requires forall t :: |Consistents(c, x, y, obs, t)| <= |Consistents(c, x, y, obs, at)|
    requires Score(c, x, y, obs, at) <= score && RefinedFrom(c, x, y, obs, at, t0, rms, n)
    ensures Evaluated(c, obs, Node(x, y, t0, rms, score, n))
  {
    hide Score, Consistents, RefinedFrom;
    assert RefinesCover(c, obs, Node(x, y, t0, rms, score, n), at);
  }
}
