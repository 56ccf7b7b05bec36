/**
 Biquad cascades as linear state machines. The main result: turning a phone by any constant
 orthogonal matrix leaves the band-passed energy of its samples unchanged.
 */
module Filter {

  /** One second-order section, transposed direct form II. */
  datatype Biquad = Biquad(b0: real, b1: real, b2: real, a1: real, a2: real, z1: real, z2: real)

  /** The gain at zero frequency exists. */
  predicate HasDc(q: Biquad) { 1.0 + q.a1 + q.a2 != 0.0 }

  function Dc(q: Biquad): real
    requires HasDc(q)
  {
    (q.b0 + q.b1 + q.b2) / (1.0 + q.a1 + q.a2)
  }

  /** The constant output for constant input v. */
  function Settled(q: Biquad, v: real): real
    requires HasDc(q)
  {
    v * Dc(q)
  }

  function Out(q: Biquad, x: real): real { q.b0 * x + q.z1 }

  function Next(q: Biquad, x: real): Biquad {
    var y := Out(q, x);
    q.(z1 := q.b1 * x - q.a1 * y + q.z2, z2 := q.b2 * x - q.a2 * y)
  }

  function Reset(q: Biquad, c: real): Biquad
    requires HasDc(q)
  {
    var y := Settled(q, c);
    var z2 := q.b2 * c - q.a2 * y;
    q.(z2 := z2, z1 := q.b1 * c - q.a1 * y + z2)
  }

  /** A section's state after a reset is the one it keeps under that constant input. */
  lemma ResetIsSteady(q: Biquad, c: real)
    requires HasDc(q)
    ensures HasDc(Reset(q, c))
    ensures Out(Reset(q, c), c) == Settled(q, c)
    ensures Next(Reset(q, c), c) == Reset(q, c)
  {
    var y, s := c * Dc(q), 1.0 + q.a1 + q.a2;
    assert Dc(q) * s == q.b0 + q.b1 + q.b2;
    assert y * s == c * (q.b0 + q.b1 + q.b2) by {
      assert (c * Dc(q)) * s == c * (Dc(q) * s);
    }
    assert y * s == y + q.a1 * y + q.a2 * y;
    assert c * (q.b0 + q.b1 + q.b2) == q.b0 * c + q.b1 * c + q.b2 * c;
    assert Out(Reset(q, c), c) == y;
  }

  // ---------------------------------------------------------------------
  // Cascades
  // ---------------------------------------------------------------------

  predicate AllDc(c: seq<Biquad>) { forall q :: q in c ==> HasDc(q) }

  function CascadeOut(c: seq<Biquad>, x: real): real {
    if c == [] then x else Out(c[|c| - 1], CascadeOut(c[..|c| - 1], x))
  }

  function CascadeNext(c: seq<Biquad>, x: real): (r: seq<Biquad>)
    ensures |r| == |c|
  {
    if c == [] then []
    else CascadeNext(c[..|c| - 1], x) + [Next(c[|c| - 1], CascadeOut(c[..|c| - 1], x))]
  }

  /** The constant output level for constant input v. */
  function Level(c: seq<Biquad>, v: real): real
    requires AllDc(c)
  {
    if c == [] then v else Settled(c[|c| - 1], Level(c[..|c| - 1], v))
  }

  function CascadeReset(c: seq<Biquad>, v: real): (r: seq<Biquad>)
    requires AllDc(c)
    ensures |r| == |c|
  {
    if c == [] then [] else CascadeReset(c[..|c| - 1], v) + [Reset(c[|c| - 1], Level(c[..|c| - 1], v))]
  }

  function Cleared(q: Biquad): Biquad { q.(z1 := 0.0, z2 := 0.0) }

  function CascadeClone(c: seq<Biquad>): (r: seq<Biquad>)
    ensures |r| == |c|
  {
    seq(|c|, i requires 0 <= i < |c| => Cleared(c[i]))
  }

  /** Filters one sample through every section, in place. */
  method Process(c: array<Biquad>, x: real) returns (y: real)
    modifies c
    ensures c[..] == CascadeNext(old(c[..]), x) && y == CascadeOut(old(c[..]), x)
  {
    hide Out, Next;
    y := x;
    ghost var was := c[..];
    for i := 0 to c.Length
      invariant c[..i] == CascadeNext(was[..i], x) && y == CascadeOut(was[..i], x)
      invariant forall k :: i <= k < c.Length ==> c[k] == was[k]
    {
      assert was[..i + 1][..i] == was[..i];
      y, c[i] := Out(c[i], y), Next(c[i], y);
      assert c[..i + 1] == c[..i] + [c[i]];
    }
    assert was[..c.Length] == was && c[..c.Length] == c[..];
  }

  /** Puts every section into its steady state for constant input v, in place. */
  method ResetTo(c: array<Biquad>, v: real)
    requires AllDc(c[..])
    modifies c
    ensures c[..] == CascadeReset(old(c[..]), v)
  {
    hide Reset, Settled;
    var level := v;
    ghost var was := c[..];
    for i := 0 to c.Length
      invariant AllDc(was[..i]) && c[..i] == CascadeReset(was[..i], v) && level == Level(was[..i], v)
      invariant forall k :: i <= k < c.Length ==> c[k] == was[k]
    {
      assert was[..i + 1][..i] == was[..i];
      assert was[i] in was;
      var q := c[i];
      c[i] := Reset(q, level);
      level := Settled(q, level);
      assert c[..i + 1] == c[..i] + [c[i]];
    }
    assert was[..c.Length] == was && c[..c.Length] == c[..];
  }

  /** A fresh copy with zeroed state. */
  method Clone(c: array<Biquad>) returns (d: array<Biquad>)
    ensures fresh(d) && d[..] == CascadeClone(c[..])
  {
    d := new Biquad[c.Length](i requires 0 <= i < c.Length reads c => Cleared(c[i]));
  }

  /** A reset cascade does not ring: constant input v leaves every section as it is. */
  lemma {:induction false} CascadeResetIsSteady(c: seq<Biquad>, v: real)
    requires AllDc(c)
    ensures CascadeOut(CascadeReset(c, v), v) == Level(c, v)
    ensures CascadeNext(CascadeReset(c, v), v) == CascadeReset(c, v)
  {
    hide Out, Next, Reset, Settled, HasDc;
    if c != [] {
      var n := |c| - 1;
      CascadeResetIsSteady(c[..n], v);
      ResetIsSteady(c[n], Level(c[..n], v));
      var r := CascadeReset(c, v);
      assert r[..n] == CascadeReset(c[..n], v);
    }
  }

  // ---------------------------------------------------------------------
  // Linearity
  // ---------------------------------------------------------------------

  datatype Vec3 = Vec3(x: real, y: real, z: real)

  function Dot(a: Vec3, b: Vec3): real { a.x * b.x + a.y * b.y + a.z * b.z }

  predicate SameCoefficients(p: Biquad, q: Biquad) { Cleared(p) == Cleared(q) }

  /** Three cascades built from the same design. */
  ghost predicate Aligned(a: seq<Biquad>, b: seq<Biquad>, c: seq<Biquad>) {
    |a| == |b| == |c|
    && forall i :: 0 <= i < |a| ==> SameCoefficients(a[i], b[i]) && SameCoefficients(a[i], c[i])
  }

  /** The section whose state is the weighted sum of three states. */
  function Blend(w: Vec3, p: Biquad, q: Biquad, r: Biquad): Biquad {
    p.(z1 := Dot(w, Vec3(p.z1, q.z1, r.z1)), z2 := Dot(w, Vec3(p.z2, q.z2, r.z2)))
  }

  function CascadeBlend(w: Vec3, a: seq<Biquad>, b: seq<Biquad>, c: seq<Biquad>): (r: seq<Biquad>)
    requires |a| == |b| == |c|
    ensures |r| == |a|
  {
    seq(|a|, i requires 0 <= i < |a| => Blend(w, a[i], b[i], c[i]))
  }

  lemma OutIsLinear(w: Vec3, p: Biquad, q: Biquad, r: Biquad, v: Vec3)
    requires SameCoefficients(p, q) && SameCoefficients(p, r)
    ensures Out(Blend(w, p, q, r), Dot(w, v)) == Dot(w, Vec3(Out(p, v.x), Out(q, v.y), Out(r, v.z)))
  {
    assert p.b0 == Cleared(p).b0 == q.b0 == r.b0;
    ScaleDot(p.b0, w, v);
    AddDot(w, Vec3(p.b0 * v.x, p.b0 * v.y, p.b0 * v.z), Vec3(p.z1, q.z1, r.z1));
    hide Dot;
  }

  lemma ScaleDot(k: real, w: Vec3, v: Vec3)
    ensures k * Dot(w, v) == Dot(w, Vec3(k * v.x, k * v.y, k * v.z))
  {
  }

  lemma AddDot(w: Vec3, u: Vec3, v: Vec3)
    ensures Dot(w, u) + Dot(w, v) == Dot(w, Vec3(u.x + v.x, u.y + v.y, u.z + v.z))
    ensures Dot(w, u) - Dot(w, v) == Dot(w, Vec3(u.x - v.x, u.y - v.y, u.z - v.z))
  {
  }

  /** b*x - a*y, blended */
  lemma PairIsLinear(w: Vec3, b: real, a: real, v: Vec3, u: Vec3)
    ensures b * Dot(w, v) - a * Dot(w, u) == Dot(w, Vec3(b * v.x - a * u.x, b * v.y - a * u.y, b * v.z - a * u.z))
  {
    ScaleDot(b, w, v);
    ScaleDot(a, w, u);
    AddDot(w, Vec3(b * v.x, b * v.y, b * v.z), Vec3(a * u.x, a * u.y, a * u.z));
    hide Dot;
  }

  lemma NextIsLinear(w: Vec3, p: Biquad, q: Biquad, r: Biquad, v: Vec3)
    requires SameCoefficients(p, q) && SameCoefficients(p, r)
    ensures Next(Blend(w, p, q, r), Dot(w, v)) == Blend(w, Next(p, v.x), Next(q, v.y), Next(r, v.z))
    ensures SameCoefficients(Next(p, v.x), Next(q, v.y)) && SameCoefficients(Next(p, v.x), Next(r, v.z))
  {
    OutIsLinear(w, p, q, r, v);
    var y := Vec3(Out(p, v.x), Out(q, v.y), Out(r, v.z));
    PairIsLinear(w, p.b1, p.a1, v, y);
    PairIsLinear(w, p.b2, p.a2, v, y);
    AddDot(w, Vec3(p.b1 * v.x - p.a1 * y.x, p.b1 * v.y - p.a1 * y.y, p.b1 * v.z - p.a1 * y.z), Vec3(p.z2, q.z2, r.z2));
    hide Dot, Out;
  }

  lemma ResetIsLinear(w: Vec3, q: Biquad, v: Vec3)
    requires HasDc(q)
    ensures Reset(q, Dot(w, v)) == Blend(w, Reset(q, v.x), Reset(q, v.y), Reset(q, v.z))
    ensures Settled(q, Dot(w, v)) == Dot(w, Vec3(Settled(q, v.x), Settled(q, v.y), Settled(q, v.z)))
  {
    var d := Dc(q);
    ScaleDot(d, w, v);
    var y := Vec3(v.x * d, v.y * d, v.z * d);
    PairIsLinear(w, q.b1, q.a1, v, y);
    PairIsLinear(w, q.b2, q.a2, v, y);
    AddDot(w, Vec3(q.b1 * v.x - q.a1 * y.x, q.b1 * v.y - q.a1 * y.y, q.b1 * v.z - q.a1 * y.z),
           Vec3(q.b2 * v.x - q.a2 * y.x, q.b2 * v.y - q.a2 * y.y, q.b2 * v.z - q.a2 * y.z));
    hide Dot, Dc;
  }

  /** Filtering a weighted sum is the weighted sum of the filtered inputs, state included. */
  lemma {:induction false} CascadeIsLinear(w: Vec3, a: seq<Biquad>, b: seq<Biquad>, c: seq<Biquad>, v: Vec3)
    requires Aligned(a, b, c)
    ensures CascadeOut(CascadeBlend(w, a, b, c), Dot(w, v))
         == Dot(w, Vec3(CascadeOut(a, v.x), CascadeOut(b, v.y), CascadeOut(c, v.z)))
    ensures CascadeNext(CascadeBlend(w, a, b, c), Dot(w, v))
         == CascadeBlend(w, CascadeNext(a, v.x), CascadeNext(b, v.y), CascadeNext(c, v.z))
    ensures Aligned(CascadeNext(a, v.x), CascadeNext(b, v.y), CascadeNext(c, v.z))
  {
    hide Out, Next, Blend, Dot, SameCoefficients;
    if a != [] {
      var n := |a| - 1;
      var a', b', c' := a[..n], b[..n], c[..n];
      CascadeIsLinear(w, a', b', c', v);
      var u := Vec3(CascadeOut(a', v.x), CascadeOut(b', v.y), CascadeOut(c', v.z));
      OutIsLinear(w, a[n], b[n], c[n], u);
      NextIsLinear(w, a[n], b[n], c[n], u);
      assert CascadeBlend(w, a, b, c)[..n] == CascadeBlend(w, a', b', c');
    }
  }

  lemma ResetKeepsDesign(q: Biquad, v: Vec3)
    requires HasDc(q)
    ensures SameCoefficients(Reset(q, v.x), Reset(q, v.y)) && SameCoefficients(Reset(q, v.x), Reset(q, v.z))
  {
    hide Settled;
  }

  lemma {:induction false} CascadeResetIsLinear(w: Vec3, c: seq<Biquad>, v: Vec3)
    requires AllDc(c)
    ensures CascadeReset(c, Dot(w, v))
         == CascadeBlend(w, CascadeReset(c, v.x), CascadeReset(c, v.y), CascadeReset(c, v.z))
    ensures Level(c, Dot(w, v)) == Dot(w, Vec3(Level(c, v.x), Level(c, v.y), Level(c, v.z)))
    ensures Aligned(CascadeReset(c, v.x), CascadeReset(c, v.y), CascadeReset(c, v.z))
  {
    hide Reset, Settled, Dot, Blend, SameCoefficients, HasDc;
    if c == [] {
      assert v == Vec3(v.x, v.y, v.z);
    } else {
      var n := |c| - 1;
      CascadeResetIsLinear(w, c[..n], v);
      var u := Vec3(Level(c[..n], v.x), Level(c[..n], v.y), Level(c[..n], v.z));
      ResetIsLinear(w, c[n], u);
      ResetKeepsDesign(c[n], u);
    }
  }

  // ---------------------------------------------------------------------
  // Orientation invariance
  // ---------------------------------------------------------------------

  datatype Rotation = Rotation(r0: Vec3, r1: Vec3, r2: Vec3)

  function Turn(m: Rotation, v: Vec3): Vec3 { Vec3(Dot(m.r0, v), Dot(m.r1, v), Dot(m.r2, v)) }

  /** The columns are orthonormal. */
  predicate Orthogonal(m: Rotation) {
    var c0, c1, c2 := Vec3(m.r0.x, m.r1.x, m.r2.x), Vec3(m.r0.y, m.r1.y, m.r2.y), Vec3(m.r0.z, m.r1.z, m.r2.z);
    Dot(c0, c0) == 1.0 && Dot(c1, c1) == 1.0 && Dot(c2, c2) == 1.0
    && Dot(c0, c1) == 0.0 && Dot(c0, c2) == 0.0 && Dot(c1, c2) == 0.0
  }

  function Energy(v: Vec3): real { Dot(v, v) }

  /** The three axes' cascades. */
  datatype Bank = Bank(x: seq<Biquad>, y: seq<Biquad>, z: seq<Biquad>)

  function BankOut(k: Bank, v: Vec3): Vec3 { Vec3(CascadeOut(k.x, v.x), CascadeOut(k.y, v.y), CascadeOut(k.z, v.z)) }

  function BankNext(k: Bank, v: Vec3): Bank {
    Bank(CascadeNext(k.x, v.x), CascadeNext(k.y, v.y), CascadeNext(k.z, v.z))
  }

  /** What a segment start does: a cleared copy per axis, settled on the first sample. */
  function BankStart(proto: seq<Biquad>, v: Vec3): Bank
    requires AllDc(CascadeClone(proto))
  {
    var c := CascadeClone(proto);
    Bank(CascadeReset(c, v.x), CascadeReset(c, v.y), CascadeReset(c, v.z))
  }

  ghost predicate AlignedBank(k: Bank) { Aligned(k.x, k.y, k.z) }

  ghost function TurnBank(m: Rotation, k: Bank): Bank
    requires AlignedBank(k)
  {
    Bank(CascadeBlend(m.r0, k.x, k.y, k.z), CascadeBlend(m.r1, k.x, k.y, k.z), CascadeBlend(m.r2, k.x, k.y, k.z))
  }

  /** The band-passed energy series of a run of samples. */
  function Energies(k: Bank, samples: seq<Vec3>): (r: seq<real>)
    ensures |r| == |samples|
    decreases |samples|
  {
    if samples == [] then []
    else [Energy(BankOut(k, samples[0]))] + Energies(BankNext(k, samples[0]), samples[1..])
  }

  /** The filtered samples of a run. */
  function Outputs(k: Bank, samples: seq<Vec3>): (r: seq<Vec3>)
    ensures |r| == |samples|
    decreases |samples|
  {
    if samples == [] then [] else [BankOut(k, samples[0])] + Outputs(BankNext(k, samples[0]), samples[1..])
  }

  /** The bank after a run of samples. */
  function BankAfter(k: Bank, samples: seq<Vec3>): Bank
    decreases |samples|
  {
    if samples == [] then k else BankAfter(BankNext(k, samples[0]), samples[1..])
  }

  /** One more sample at the end of a run. */
  lemma {:induction false} RunSnoc(k: Bank, samples: seq<Vec3>, v: Vec3)
    ensures Energies(k, samples + [v]) == Energies(k, samples) + [Energy(BankOut(BankAfter(k, samples), v))]
    ensures BankAfter(k, samples + [v]) == BankNext(BankAfter(k, samples), v)
    ensures Outputs(k, samples + [v]) == Outputs(k, samples) + [BankOut(BankAfter(k, samples), v)]
    decreases |samples|
  {
    hide Energy, BankOut, BankNext;
    if samples == [] {
      assert samples + [v] == [v] && [v][1..] == [];
    } else {
      assert (samples + [v])[1..] == samples[1..] + [v];
      RunSnoc(BankNext(k, samples[0]), samples[1..], v);
    }
  }

  function TurnAll(m: Rotation, samples: seq<Vec3>): (r: seq<Vec3>)
    ensures |r| == |samples|
  {
    seq(|samples|, i requires 0 <= i < |samples| => Turn(m, samples[i]))
  }

  lemma TurnKeepsEnergy(m: Rotation, v: Vec3)
    requires Orthogonal(m)
    ensures Energy(Turn(m, v)) == Energy(v)
  {
    var c0, c1, c2 := Vec3(m.r0.x, m.r1.x, m.r2.x), Vec3(m.r0.y, m.r1.y, m.r2.y), Vec3(m.r0.z, m.r1.z, m.r2.z);
    TurnedSquares(m, v);
    assert (v.x * v.x) * Dot(c0, c0) == v.x * v.x;
    assert (v.y * v.y) * Dot(c1, c1) == v.y * v.y;
    assert (v.z * v.z) * Dot(c2, c2) == v.z * v.z;
  }

  lemma TurnedSquares(m: Rotation, v: Vec3)
    ensures var c0, c1, c2 := Vec3(m.r0.x, m.r1.x, m.r2.x), Vec3(m.r0.y, m.r1.y, m.r2.y), Vec3(m.r0.z, m.r1.z, m.r2.z);
            Energy(Turn(m, v)) == (v.x * v.x) * Dot(c0, c0) + (v.y * v.y) * Dot(c1, c1) + (v.z * v.z) * Dot(c2, c2)
              + 2.0 * ((v.x * v.y) * Dot(c0, c1) + (v.x * v.z) * Dot(c0, c2) + (v.y * v.z) * Dot(c1, c2))
  {
    SquareOfDot(m.r0, v);
    SquareOfDot(m.r1, v);
    SquareOfDot(m.r2, v);
  }

  lemma SquareOfDot(r: Vec3, v: Vec3)
    ensures Dot(r, v) * Dot(r, v)
         == (v.x * v.x) * (r.x * r.x) + (v.y * v.y) * (r.y * r.y) + (v.z * v.z) * (r.z * r.z)
            + 2.0 * ((v.x * v.y) * (r.x * r.y) + (v.x * v.z) * (r.x * r.z) + (v.y * v.z) * (r.y * r.z))
  {
  }

  lemma TurnedBankStep(m: Rotation, k: Bank, v: Vec3)
    requires AlignedBank(k)
    ensures BankOut(TurnBank(m, k), Turn(m, v)) == Turn(m, BankOut(k, v))
    ensures AlignedBank(BankNext(k, v))
    ensures BankNext(TurnBank(m, k), Turn(m, v)) == TurnBank(m, BankNext(k, v))
  {
    hide Dot, CascadeBlend, CascadeOut, CascadeNext;
    CascadeIsLinear(m.r0, k.x, k.y, k.z, v);
    CascadeIsLinear(m.r1, k.x, k.y, k.z, v);
    CascadeIsLinear(m.r2, k.x, k.y, k.z, v);
  }

  lemma {:induction false} TurnedRun(m: Rotation, k: Bank, samples: seq<Vec3>)
    requires Orthogonal(m) && AlignedBank(k)
    ensures Energies(TurnBank(m, k), TurnAll(m, samples)) == Energies(k, samples)
    decreases |samples|
  {
    hide Energy, Turn, BankOut, BankNext, TurnBank, Orthogonal;
    if samples != [] {
      var v := samples[0];
      TurnedBankStep(m, k, v);
      TurnKeepsEnergy(m, BankOut(k, v));
      TurnedRun(m, BankNext(k, v), samples[1..]);
      assert TurnAll(m, samples)[1..] == TurnAll(m, samples[1..]);
    }
  }

  lemma {:induction false} TurnedOutputs(m: Rotation, k: Bank, samples: seq<Vec3>)
    requires AlignedBank(k)
    ensures Outputs(TurnBank(m, k), TurnAll(m, samples)) == TurnAll(m, Outputs(k, samples))
    decreases |samples|
  {
    hide Turn, BankOut, BankNext, TurnBank;
    if samples != [] {
      TurnedBankStep(m, k, samples[0]);
      TurnedOutputs(m, BankNext(k, samples[0]), samples[1..]);
      assert TurnAll(m, samples)[1..] == TurnAll(m, samples[1..]);
      assert TurnAll(m, Outputs(k, samples))[1..] == TurnAll(m, Outputs(BankNext(k, samples[0]), samples[1..]));
    }
  }

  /** A bank settled on a turned sample is the turned bank. */
  lemma TurnedBankStart(m: Rotation, proto: seq<Biquad>, v: Vec3)
    requires AllDc(CascadeClone(proto))
    ensures AlignedBank(BankStart(proto, v)) && BankStart(proto, Turn(m, v)) == TurnBank(m, BankStart(proto, v))
  {
    hide Dot, CascadeReset, CascadeBlend, Aligned;
    var c := CascadeClone(proto);
    CascadeResetIsLinear(m.r0, c, v);
    CascadeResetIsLinear(m.r1, c, v);
    CascadeResetIsLinear(m.r2, c, v);
  }

  /**
   Orientation invariance: turning every sample of a gap-free segment by a constant orthogonal matrix
   leaves the band-passed energy series identical.
   */
  lemma OrientationInvariance(m: Rotation, proto: seq<Biquad>, samples: seq<Vec3>)
    requires Orthogonal(m) && AllDc(CascadeClone(proto)) && samples != []
    ensures Energies(BankStart(proto, Turn(m, samples[0])), TurnAll(m, samples))
         == Energies(BankStart(proto, samples[0]), samples)
  {
    hide BankStart, TurnBank, Turn, Orthogonal;
    TurnedBankStart(m, proto, samples[0]);
    TurnedRun(m, BankStart(proto, samples[0]), samples);
  }
}
