/** The plane-wave fit: least squares for t = a + sx*x + sy*y, by the normal equations and Cramer's rule. */
module PlaneFit {

  datatype Point = Point(x: real, y: real, t: real)

  datatype Vec = Vec(c0: real, c1: real, c2: real)

  datatype Mat = Mat(r0: Vec, r1: Vec, r2: Vec)

  const ZERO := Vec(0.0, 0.0, 0.0)

  function Dot(a: Vec, b: Vec): real { a.c0 * b.c0 + a.c1 * b.c1 + a.c2 * b.c2 }

  function Plus(a: Vec, b: Vec): Vec { Vec(a.c0 + b.c0, a.c1 + b.c1, a.c2 + b.c2) }

  function Minus(a: Vec, b: Vec): Vec { Vec(a.c0 - b.c0, a.c1 - b.c1, a.c2 - b.c2) }

  function Scale(k: real, a: Vec): Vec { Vec(k * a.c0, k * a.c1, k * a.c2) }

  function Apply(m: Mat, v: Vec): Vec { Vec(Dot(m.r0, v), Dot(m.r1, v), Dot(m.r2, v)) }

  function Add(m: Mat, n: Mat): Mat { Mat(Plus(m.r0, n.r0), Plus(m.r1, n.r1), Plus(m.r2, n.r2)) }

  function Outer(v: Vec): Mat { Mat(Scale(v.c0, v), Scale(v.c1, v), Scale(v.c2, v)) }

  // ---------------------------------------------------------------------
  // Cramer's rule
  // ---------------------------------------------------------------------

  function Det(m: Mat): real {
    m.r0.c0 * (m.r1.c1 * m.r2.c2 - m.r1.c2 * m.r2.c1)
    - m.r0.c1 * (m.r1.c0 * m.r2.c2 - m.r1.c2 * m.r2.c0)
    + m.r0.c2 * (m.r1.c0 * m.r2.c1 - m.r1.c1 * m.r2.c0)
  }

  /** m with column c replaced by b. */
  function WithColumn(m: Mat, c: nat, b: Vec): Mat
    requires c < 3
  {
    if c == 0 then Mat(m.r0.(c0 := b.c0), m.r1.(c0 := b.c1), m.r2.(c0 := b.c2))
    else if c == 1 then Mat(m.r0.(c1 := b.c0), m.r1.(c1 := b.c1), m.r2.(c1 := b.c2))
    else Mat(m.r0.(c2 := b.c0), m.r1.(c2 := b.c1), m.r2.(c2 := b.c2))
  }

  function CramerNumerators(m: Mat, b: Vec): Vec {
    Vec(Det(WithColumn(m, 0, b)), Det(WithColumn(m, 1, b)), Det(WithColumn(m, 2, b)))
  }

  /** A row times the three replaced determinants is the determinant times that entry of b. */
  lemma CramerRow0(m: Mat, b: Vec)
    ensures Dot(m.r0, CramerNumerators(m, b)) == Det(m) * b.c0
  {
  }

  lemma CramerRow1(m: Mat, b: Vec)
    ensures Dot(m.r1, CramerNumerators(m, b)) == Det(m) * b.c1
  {
  }

  lemma CramerRow2(m: Mat, b: Vec)
    ensures Dot(m.r2, CramerNumerators(m, b)) == Det(m) * b.c2
  {
  }

  lemma DotDivide(a: Vec, v: Vec, d: real, e: real)
    requires d != 0.0 && Dot(a, v) == d * e
    ensures Dot(a, Vec(v.c0 / d, v.c1 / d, v.c2 / d)) == e
  {
    var k := 1.0 / d;
    assert k * d == 1.0;
    assert v.c0 / d == k * v.c0 && v.c1 / d == k * v.c1 && v.c2 / d == k * v.c2;
    assert Dot(a, Vec(k * v.c0, k * v.c1, k * v.c2)) == k * Dot(a, v);
    assert k * (d * e) == (k * d) * e;
  }

  function Divided(v: Vec, d: real): Vec
    requires d != 0.0
  {
    Vec(v.c0 / d, v.c1 / d, v.c2 / d)
  }

  /** Cramer's rule. */
  lemma Cramer(m: Mat, b: Vec)
    requires Det(m) != 0.0
    ensures Apply(m, Divided(CramerNumerators(m, b), Det(m))) == b
  {
    hide Det, Dot, CramerNumerators;
    var v, d := CramerNumerators(m, b), Det(m);
    CramerRow0(m, b);
    CramerRow1(m, b);
    CramerRow2(m, b);
    DotDivide(m.r0, v, d, b.c0);
    DotDivide(m.r1, v, d, b.c1);
    DotDivide(m.r2, v, d, b.c2);
  }

  /** Solves m x = b, or reports a determinant below 1e-9. */
  method Solve3(m: Mat, b: Vec) returns (x: Vec, ok: bool)
    ensures ok <==> !(-0.000000001 < Det(m) < 0.000000001)
    ensures ok ==> Apply(m, x) == b
  {
    hide *;
    var d := Det(m);
    if -0.000000001 < d < 0.000000001 {
      return ZERO, false;
    }
    Cramer(m, b);
    return Divided(CramerNumerators(m, b), d), true;
  }

  // ---------------------------------------------------------------------
  // Least squares
  // ---------------------------------------------------------------------

  /** The design row of a point. */
  function Row(p: Point): Vec { Vec(1.0, p.x, p.y) }

  function Residual(s: Vec, p: Point, mt: real): real { p.t - mt - Dot(s, Row(p)) }

  /** The residual sum of squares of plane s. */
  function SumSquares(s: Vec, ps: seq<Point>, mt: real): (r: real)
    ensures r >= 0.0
  {
    if ps == [] then 0.0
    else
      var e := Residual(s, ps[|ps| - 1], mt);
      assert e * e >= 0.0;
      SumSquares(s, ps[..|ps| - 1], mt) + e * e
  }

  function Gram(ps: seq<Point>): Mat {
    if ps == [] then Mat(ZERO, ZERO, ZERO) else Add(Gram(ps[..|ps| - 1]), Outer(Row(ps[|ps| - 1])))
  }

  function Moments(ps: seq<Point>, mt: real): Vec {
    if ps == [] then ZERO
    else Plus(Moments(ps[..|ps| - 1], mt), Scale(ps[|ps| - 1].t - mt, Row(ps[|ps| - 1])))
  }

  /** The residuals' moments: zero exactly at a solution of the normal equations. */
  function Gradient(s: Vec, ps: seq<Point>, mt: real): Vec {
    if ps == [] then ZERO
    else Plus(Gradient(s, ps[..|ps| - 1], mt), Scale(Residual(s, ps[|ps| - 1], mt), Row(ps[|ps| - 1])))
  }

  function SpreadOf(d: Vec, ps: seq<Point>): (r: real)
    ensures r >= 0.0
  {
    if ps == [] then 0.0
    else
      var e := Dot(d, Row(ps[|ps| - 1]));
      assert e * e >= 0.0;
      SpreadOf(d, ps[..|ps| - 1]) + e * e
  }

  lemma ApplyAdd(m: Mat, n: Mat, v: Vec)
    ensures Apply(Add(m, n), v) == Plus(Apply(m, v), Apply(n, v))
  {
  }

  lemma DotScale(k: real, r: Vec, v: Vec)
    ensures Dot(Scale(k, r), v) == k * Dot(v, r)
  {
  }

  lemma ApplyOuter(r: Vec, v: Vec, t: real)
    ensures Plus(Scale(t - Dot(v, r), r), Apply(Outer(r), v)) == Scale(t, r)
  {
    DotScale(r.c0, r, v);
    DotScale(r.c1, r, v);
    DotScale(r.c2, r, v);
    var d := Dot(v, r);
    hide Dot;
    assert Apply(Outer(r), v) == Vec(r.c0 * d, r.c1 * d, r.c2 * d);
  }

  /** gradient = moments - gram * s */
  lemma {:induction false} NormalEquations(s: Vec, ps: seq<Point>, mt: real)
    ensures Plus(Gradient(s, ps, mt), Apply(Gram(ps), s)) == Moments(ps, mt)
  {
    if ps != [] {
      var n := |ps| - 1;
      NormalEquations(s, ps[..n], mt);
      ApplyAdd(Gram(ps[..n]), Outer(Row(ps[n])), s);
      ApplyOuter(Row(ps[n]), s, ps[n].t - mt);
      hide Dot, Outer, Scale, Apply;
    } else {
      assert Apply(Gram(ps), s) == ZERO;
    }
  }

  /** Moving from plane s to plane u changes the residual sum by a linear and a non-negative part. */
  lemma {:induction false} MovePlane(s: Vec, u: Vec, ps: seq<Point>, mt: real)
    ensures var d := Minus(s, u);
            SumSquares(u, ps, mt) == SumSquares(s, ps, mt) + 2.0 * Dot(d, Gradient(s, ps, mt)) + SpreadOf(d, ps)
  {
    var d := Minus(s, u);
    if ps != [] {
      var n := |ps| - 1;
      MovePlane(s, u, ps[..n], mt);
      MovePoint(s, u, ps[n], mt);
      DotPlus(d, Gradient(s, ps[..n], mt), Scale(Residual(s, ps[n], mt), Row(ps[n])));
      hide Dot, Residual, Scale, Plus;
    } else {
      assert Dot(d, ZERO) == 0.0;
    }
  }

  lemma DotPlus(d: Vec, a: Vec, b: Vec)
    ensures Dot(d, Plus(a, b)) == Dot(d, a) + Dot(d, b)
  {
  }

  lemma MovePoint(s: Vec, u: Vec, p: Point, mt: real)
    ensures var d, e := Minus(s, u), Residual(s, p, mt);
            Residual(u, p, mt) * Residual(u, p, mt)
            == e * e + 2.0 * Dot(d, Scale(e, Row(p))) + Dot(d, Row(p)) * Dot(d, Row(p))
  {
    var d, e, q := Minus(s, u), Residual(s, p, mt), Dot(Minus(s, u), Row(p));
    assert Residual(u, p, mt) == e + q;
    assert Dot(d, Scale(e, Row(p))) == e * q;
    assert (e + q) * (e + q) == e * e + 2.0 * (e * q) + q * q;
  }

  /** A solution of the normal equations has the smallest residual sum of all planes. */
  lemma LeastSquares(s: Vec, ps: seq<Point>, mt: real)
    requires Apply(Gram(ps), s) == Moments(ps, mt)
    ensures forall u :: SumSquares(s, ps, mt) <= SumSquares(u, ps, mt)
  {
    NormalEquations(s, ps, mt);
    assert Gradient(s, ps, mt) == ZERO;
    forall u ensures SumSquares(s, ps, mt) <= SumSquares(u, ps, mt) {
      MovePlane(s, u, ps, mt);
      assert Dot(Minus(s, u), ZERO) == 0.0;
    }
  }

  function MeanTime(ps: seq<Point>): real
    requires ps != []
  {
    TimeSum(ps) / |ps| as real
  }

  function TimeSum(ps: seq<Point>): real {
    if ps == [] then 0.0 else TimeSum(ps[..|ps| - 1]) + ps[|ps| - 1].t
  }

  /** Accumulates the normal equations. */
  method Accumulate(ps: seq<Point>, mt: real) returns (a: Mat, b: Vec)
    ensures a == Gram(ps) && b == Moments(ps, mt)
  {
    hide Outer, Plus, Scale, Add;
    a, b := Mat(ZERO, ZERO, ZERO), ZERO;
    for i := 0 to |ps|
      invariant a == Gram(ps[..i]) && b == Moments(ps[..i], mt)
    {
      assert ps[..i + 1][..i] == ps[..i];
      a := Add(a, Outer(Row(ps[i])));
      b := Plus(b, Scale(ps[i].t - mt, Row(ps[i])));
    }
    assert ps[..|ps|] == ps;
  }

  lemma FlatResidual(p: Point, mt: real)
    ensures Residual(ZERO, p, mt) == p.t - mt
  {
    assert Dot(ZERO, Row(p)) == 0.0;
  }

  method ResidualSums(s: Vec, ps: seq<Point>, mt: real) returns (ssRes: real, ssTot: real)
    ensures ssRes == SumSquares(s, ps, mt) && ssTot == SumSquares(ZERO, ps, mt)
  {
    hide Residual;
    ssRes, ssTot := 0.0, 0.0;
    for i := 0 to |ps|
      invariant ssRes == SumSquares(s, ps[..i], mt) && ssTot == SumSquares(ZERO, ps[..i], mt)
    {
      assert ps[..i + 1][..i] == ps[..i];
      FlatResidual(ps[i], mt);
      var e, t := Residual(s, ps[i], mt), ps[i].t - mt;
      ssRes := ssRes + e * e;
      ssTot := ssTot + t * t;
    }
    assert ps[..|ps|] == ps;
  }

  /** The share of variance explained lies in [0, 1] because the flat plane is one of the candidates. */
  lemma ExplainedShare(ssRes: real, ssTot: real)
    requires 0.0 <= ssRes <= ssTot && ssTot > 0.0
    ensures 0.0 <= 1.0 - ssRes / ssTot <= 1.0
  {
  }

  function Hypot(sqrt: real -> real, a: real, b: real): real { sqrt(a * a + b * b) }

  /** s has the smallest residual sum of all planes, and the velocity and share are those of its slope and residuals. */
  ghost predicate BestPlane(ps: seq<Point>, sqrt: real -> real, s: Vec, vel: real, r2: real) {
    && ps != [] && SumSquares(ZERO, ps, MeanTime(ps)) >= 0.000000001
    && (forall u :: SumSquares(s, ps, MeanTime(ps)) <= SumSquares(u, ps, MeanTime(ps)))
    && r2 == 1.0 - SumSquares(s, ps, MeanTime(ps)) / SumSquares(ZERO, ps, MeanTime(ps))
    && var slow := Hypot(sqrt, s.c1, s.c2); vel == if slow > 1.0 / 99.0 then 1.0 / slow else 99.0
  }

  /** Too few points, a singular system, or next to no spread in time. */
  ghost predicate NoPlane(ps: seq<Point>) {
    || |ps| < 4 || -0.000000001 < Det(Gram(ps)) < 0.000000001
    || SumSquares(ZERO, ps, MeanTime(ps)) < 0.000000001
  }

  /** The velocity and share of the plane wave through the points; 99 and 0 exactly when there is no plane to fit. */
  ghost predicate WaveOf(ps: seq<Point>, sqrt: real -> real, vel: real, r2: real) {
    if NoPlane(ps) then vel == 99.0 && r2 == 0.0 else exists s :: BestPlane(ps, sqrt, s, vel, r2)
  }

  /**
   The plane-wave fit. Fewer than four votes, a singular system and a spread below 1e-9 give velocity 99 and
   share 0. Otherwise the share is that of the plane with the smallest residual sum of all planes. On every
   path the share is in [0, 1] and the velocity in (0, 99].
   */
  method PlaneWave(ps: seq<Point>, sqrt: real -> real) returns (vel: real, r2: real)
    ensures WaveOf(ps, sqrt, vel, r2)
    ensures 0.0 <= r2 <= 1.0 && 0.0 < vel <= 99.0
  {
    hide SumSquares, Gram, Moments, Det, Hypot;
    if |ps| < 4 { return 99.0, 0.0; }
    var mt := 0.0;
    for i := 0 to |ps|
      invariant mt == TimeSum(ps[..i])
    {
      assert ps[..i + 1][..i] == ps[..i];
      mt := mt + ps[i].t;
    }
    assert ps[..|ps|] == ps;
    mt := mt / |ps| as real;
    var a, b := Accumulate(ps, mt);
    var sol, ok := Solve3(a, b);
    if !ok { return 99.0, 0.0; }
    LeastSquares(sol, ps, mt);
    var ssRes, ssTot := ResidualSums(sol, ps, mt);
    if ssTot < 0.000000001 { return 99.0, 0.0; }
    ExplainedShare(ssRes, ssTot);
    var slow := Hypot(sqrt, sol.c1, sol.c2);
    vel := 99.0;
    if slow > 1.0 / 99.0 { vel := 1.0 / slow; }
    r2 := 1.0 - ssRes / ssTot;
    assert BestPlane(ps, sqrt, sol, vel, r2);
  }
}
