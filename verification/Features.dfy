/** What a trigger is judged on: the features of its evidence, and the gates that classify it. */
module Features {
  import opened Basics
  import opened Medians
  import D = Detect
  import F = Filter

  type Vec3 = F.Vec3

  datatype Class = Seismic | Freefall | Handling | Unsettled | Impulsive | Tonal

  /** Everything a pick's features are computed from. */
  datatype Evidence = Evidence(onset: nat, pre: seq<real>, gPre: Vec3, axes: seq<Vec3>, mags: seq<real>,
                               strong: seq<real>, gNow: Vec3, noise: seq<real>, staltaMax: real, freefall: bool)

  /** The features that decide. */
  datatype Features = Features(freefall: bool, tilt: real, noiseFloor: real, preNoise: real, duration: real,
                               crest: real, flatness: real)

  /**
   The thresholds. The square root, the angle between gravity vectors and the lowest spectral flatness of the strongest
   axis are given.
   */
  datatype Gates = Gates(maxEventTilt: real, unsettledRatio: real, impulsiveMaxDuration: real, impulsiveCrest: real,
                         tonalMaxFlatness: real, sqrt: real -> real, angle: (Vec3, Vec3) -> real,
                         flatness: seq<Vec3> -> real)

  // ---------------------------------------------------------------------
  // Levels
  // ---------------------------------------------------------------------

  /** The largest value, at least 0. */
  function Peak(s: seq<real>): real {
    if s == [] then 0.0
    else
      var p := Peak(s[..|s| - 1]);
      if s[|s| - 1] > p then s[|s| - 1] else p
  }

  lemma {:induction false} PeakStep(s: seq<real>, x: real, t: seq<real>)
    requires t == s + [x]
    ensures Peak(t) == if x > Peak(s) then x else Peak(s)
  {
    assert t[..|t| - 1] == s;
  }

  /** The peak is the least upper bound, zero included. */
  lemma {:induction false} PeakBound(s: seq<real>)
    ensures Peak(s) >= 0.0 && forall i :: 0 <= i < |s| ==> s[i] <= Peak(s)
    ensures Peak(s) == 0.0 || Peak(s) in s
  {
    if s != [] { PeakBound(s[..|s| - 1]); }
  }

  /** The root mean square; zero for nothing. */
  function Rms(g: Gates, s: seq<real>): real {
    if s == [] then 0.0 else g.sqrt(D.TotalSquares(s) / |s| as real)
  }

  /** The median level of the quiet seconds, once there are five. */
  function NoiseFloor(noise: seq<real>): real { if |noise| < 5 then 0.0 else Median(noise) }

  // ---------------------------------------------------------------------
  // Significant duration
  // ---------------------------------------------------------------------

  /** The energy of the samples up to and including i. */
  function EnergyTo(x: seq<real>, i: nat): real
    requires i < |x|
  {
    D.TotalSquares(x[..i + 1])
  }

  /** i is the first sample by which the energy has reached the level. */
  ghost predicate FirstReaches(x: seq<real>, level: real, i: nat) {
    i < |x| && EnergyTo(x, i) >= level && forall j :: 0 <= j < i ==> EnergyTo(x, j) < level
  }

  /** The first sample from `from` on by which the energy has reached the level; the length if none has. */
  function Reaching(x: seq<real>, level: real, from: nat): (i: nat)
    requires from <= |x|
    ensures from <= i <= |x|
    decreases |x| - from
  {
    if from == |x| || EnergyTo(x, from) >= level then from else Reaching(x, level, from + 1)
  }

  lemma {:induction false} ReachingFirst(x: seq<real>, level: real, from: nat)
    requires from < |x| && EnergyTo(x, |x| - 1) >= level && forall j :: 0 <= j < from ==> EnergyTo(x, j) < level
    ensures FirstReaches(x, level, Reaching(x, level, from))
    decreases |x| - from
  {
    hide EnergyTo;
    if EnergyTo(x, from) < level { ReachingFirst(x, level, from + 1); }
  }

  /** The time between 5 % and 95 % of the energy; zero without energy. */
  function Duration(x: seq<real>, fs: real): real
    requires fs > 0.0
  {
    var total := D.TotalSquares(x);
    if total <= 0.0 then 0.0 else (Share(x, 0.95, total) - Share(x, 0.05, total)) as real / fs
  }

  /** The first sample by which this share of the total has been reached. */
  function Share(x: seq<real>, share: real, total: real): nat { Reaching(x, share * total, 0) }

  lemma {:induction false} EnergyGrows(x: seq<real>, i: nat, j: nat)
    requires i <= j < |x|
    ensures EnergyTo(x, i) <= EnergyTo(x, j)
    decreases j
  {
    if i < j {
      assert x[..j + 1][..j] == x[..j];
      assert x[..j] == x[..j - 1 + 1];
      EnergyGrows(x, i, j - 1);
    }
  }

  lemma {:induction false} EnergyAll(x: seq<real>)
    ensures D.TotalSquares(x) >= 0.0 && (x != [] ==> EnergyTo(x, |x| - 1) == D.TotalSquares(x))
  {
    assert x[..|x|] == x;
    if x != [] { EnergyAll(x[..|x| - 1]); }
  }

  /** The duration lies between two samples that are each the first to reach their share of the energy. */
  lemma DurationMeans(x: seq<real>, fs: real) returns (a: nat, b: nat)
    requires fs > 0.0 && D.TotalSquares(x) > 0.0
    ensures a <= b < |x| && Duration(x, fs) == (b - a) as real / fs
    ensures FirstReaches(x, 0.05 * D.TotalSquares(x), a) && FirstReaches(x, 0.95 * D.TotalSquares(x), b)
  {
    hide D.TotalSquares, EnergyTo;
    var total := D.TotalSquares(x);
    assert x != [] by { NoEnergy(); }
    EnergyAll(x);
    ReachingFirst(x, 0.05 * total, 0);
    ReachingFirst(x, 0.95 * total, 0);
    a, b := Reaching(x, 0.05 * total, 0), Reaching(x, 0.95 * total, 0);
  }

  lemma NoEnergy()
    ensures D.TotalSquares([]) == 0.0
  {
  }

  function Times(a: real, b: real): real { a * b }

  lemma TimesLaws(q: real, a: real, b: real)
    ensures Times(q, a + b) == Times(q, a) + Times(q, b) && a * Times(q, b) == Times(q, a * b) && Times(q, 0.0) == 0.0
  {
    assert a * (q * b) == q * (a * b);
  }

  lemma TimesOrder(q: real, a: real, b: real)
    requires q > 0.0
    ensures Times(q, a) <= Times(q, b) <==> a <= b
  {
    TimesLaws(q, b, a - b);
    TimesLaws(q, a, b - a);
    if a < b { ProductPositive(q, b - a); }
    if b < a { ProductPositive(q, a - b); }
  }

  lemma SquarePositive(c: real)
    requires c != 0.0
    ensures D.Square(c) > 0.0
  {
    var f := 1.0 / c;
    assert c * f == 1.0;
    assert D.Square(c) * f == c;
  }

  /** The same motion, c times as strong. */
  function Scaled(x: seq<real>, c: real): (r: seq<real>)
    ensures |r| == |x|
  {
    seq(|x|, i requires 0 <= i < |x| => Times(c, x[i]))
  }

  lemma ScaledSquare(c: real, v: real)
    ensures D.Square(Times(c, v)) == Times(D.Square(c), D.Square(v))
  {
    assert (c * v) * (c * v) == (c * c) * (v * v);
  }

  lemma {:induction false} ScaledEnergy(x: seq<real>, c: real)
    ensures D.TotalSquares(Scaled(x, c)) == Times(D.Square(c), D.TotalSquares(x))
  {
    hide D.Square, Times;
    TimesLaws(D.Square(c), 0.0, 0.0);
    if x != [] {
      var n := |x| - 1;
      ScaledEnergy(x[..n], c);
      assert Scaled(x, c)[..n] == Scaled(x[..n], c);
      ScaledSquare(c, x[n]);
      TimesLaws(D.Square(c), D.TotalSquares(x[..n]), D.Square(x[n]));
    }
  }

  lemma {:induction false} ScaledReaching(x: seq<real>, c: real, level: real, from: nat)
    requires c != 0.0 && from <= |x|
    ensures Reaching(Scaled(x, c), Times(D.Square(c), level), from) == Reaching(x, level, from)
    decreases |x| - from
  {
    hide D.Square, D.TotalSquares, Times;
    if from < |x| {
      assert Scaled(x, c)[..from + 1] == Scaled(x[..from + 1], c);
      ScaledEnergy(x[..from + 1], c);
      SquarePositive(c);
      TimesOrder(D.Square(c), level, EnergyTo(x, from));
      ScaledReaching(x, c, level, from + 1);
    }
  }

  /** How strong the motion is does not matter to its duration. */
  lemma DurationScales(x: seq<real>, c: real, fs: real)
    requires fs > 0.0 && c != 0.0
    ensures Duration(Scaled(x, c), fs) == Duration(x, fs)
  {
    hide D.TotalSquares, D.Square, Scaled, Times, Share;
    var q, total := D.Square(c), D.TotalSquares(x);
    ScaledEnergy(x, c);
    SquarePositive(c);
    TimesOrder(q, total, 0.0);
    TimesLaws(q, 0.0, 0.0);
    ScaledShare(x, c, 0.95, total);
    ScaledShare(x, c, 0.05, total);
  }

  lemma ScaledShare(x: seq<real>, c: real, k: real, total: real)
    requires c != 0.0
    ensures Share(Scaled(x, c), k, Times(D.Square(c), total)) == Share(x, k, total)
  {
    hide D.Square, Scaled, Times, Reaching;
    TimesLaws(D.Square(c), k, total);
    ScaledReaching(x, c, k * total, 0);
  }

  lemma EnergyStep(x: seq<real>, i: nat)
    requires i < |x|
    ensures EnergyTo(x, i) == D.TotalSquares(x[..i + 1]) == D.TotalSquares(x[..i]) + D.Square(x[i])
  {
    hide D.Square;
    assert x[..i + 1][..i] == x[..i];
  }

  lemma NothingReached(x: seq<real>, level: real)
    ensures D.TotalSquares(x[..0]) == 0.0 && Searching(x, level, 0, -1)
  {
    assert x[..0] == [];
  }

  method Energy(x: seq<real>) returns (total: real)
    ensures total == D.TotalSquares(x)
  {
    hide D.TotalSquares, D.Square;
    NothingReached(x, 0.0);
    total := 0.0;
    for i := 0 to |x|
      invariant total == D.TotalSquares(x[..i])
    {
      EnergyStep(x, i);
      total := total + D.Square(x[i]);
    }
    assert x[..|x|] == x;
  }

  /** One pass over the samples, until both shares of the energy have been reached. */
  method SignificantDuration(x: seq<real>, fs: real) returns (d: real)
    requires fs > 0.0
    ensures d == Duration(x, fs)
  {
    hide D.TotalSquares, D.Square, EnergyTo, Reaching, Searching;
    var total := Energy(x);
    if total <= 0.0 { return 0.0; }
    var low, high := 0.05 * total, 0.95 * total;
    NothingReached(x, low);
    NothingReached(x, high);
    var cum, i5, i95 := 0.0, -1, -1;
    ghost var seen := 0;
    for i := 0 to |x|
      invariant seen == i && cum == D.TotalSquares(x[..i])
      invariant i95 == -1 && Searching(x, low, i, i5) && Searching(x, high, i, i95)
    {
      EnergyStep(x, i);
      SearchOn(x, low, i, i5);
      SearchOn(x, high, i, i95);
      cum, seen := cum + D.Square(x[i]), i + 1;
      if i5 < 0 && cum >= low { i5 := i; }
      if i95 < 0 && cum >= high {
        i95 := i;
        break;
      }
    }
    SearchDone(x, total, seen, i5, i95);
    return (i95 - i5) as real / fs;
  }

  /** The lower level is reached no later than the higher one. */
  lemma SearchDone(x: seq<real>, total: real, i: nat, i5: int, i95: int)
    requires total == D.TotalSquares(x) > 0.0 && i <= |x| && (i95 < 0 ==> i == |x|)
    requires Searching(x, 0.05 * total, i, i5) && Searching(x, 0.95 * total, i, i95)
    ensures i5 == Reaching(x, 0.05 * total, 0) && i95 == Reaching(x, 0.95 * total, 0)
  {
    hide EnergyTo, D.TotalSquares;
    EnergyAll(x);
    NoEnergy();
    ReachingStops(x, 0.95 * total, 0, |x| - 1);
    ReachingAt(x, 0.95 * total, 0);
    ReachingStops(x, 0.05 * total, 0, Reaching(x, 0.95 * total, 0));
  }

  lemma {:induction false} ReachingAt(x: seq<real>, level: real, from: nat)
    requires from <= |x|
    ensures var i := Reaching(x, level, from); i < |x| ==> EnergyTo(x, i) >= level
    decreases |x| - from
  {
    hide EnergyTo;
    if from < |x| { ReachingAt(x, level, from + 1); }
  }

  lemma {:induction false} ReachingStops(x: seq<real>, level: real, from: nat, at: nat)
    requires from <= at < |x| && EnergyTo(x, at) >= level
    ensures Reaching(x, level, from) <= at
    decreases at - from
  {
    hide EnergyTo;
    if from < at { ReachingStops(x, level, from + 1, at); }
  }

  /** The state of the search for a level before sample i: not yet reached, or reached at `at`. */
  ghost predicate Searching(x: seq<real>, level: real, i: nat, at: int)
    requires i <= |x|
  {
    if at < 0 then at == -1 && Reaching(x, level, 0) == Reaching(x, level, i) else at == Reaching(x, level, 0) < i
  }

  lemma SearchOn(x: seq<real>, level: real, i: nat, at: int)
    requires i < |x| && Searching(x, level, i, at)
    ensures Searching(x, level, i + 1, if at < 0 && EnergyTo(x, i) >= level then i else at)
  {
    hide EnergyTo;
  }

  // ---------------------------------------------------------------------
  // The gates
  // ---------------------------------------------------------------------

  function FeaturesOf(g: Gates, fs: real, e: Evidence): Features
    requires fs > 0.0
  {
    Features(e.freefall, g.angle(e.gPre, e.gNow), NoiseFloor(e.noise), Rms(g, e.pre), Duration(e.strong, fs),
             Peak(e.mags) / Max(Rms(g, e.mags), 0.000000000001), g.flatness(e.axes))
  }

  /** The first gate that the features do not pass names the class. */
  function Classify(g: Gates, f: Features): Class {
    if f.freefall then Freefall
    else if f.tilt > g.maxEventTilt then Handling
    else if f.noiseFloor > 0.0 && f.preNoise > g.unsettledRatio * f.noiseFloor then Unsettled
    else if f.duration < g.impulsiveMaxDuration || f.crest > g.impulsiveCrest then Impulsive
    else if 0.0 < f.flatness < g.tonalMaxFlatness then Tonal
    else Seismic
  }

  method RootMeanSquare(g: Gates, s: seq<real>) returns (r: real)
    ensures r == Rms(g, s)
  {
    if s == [] { return 0.0; }
    var total := Energy(s);
    return g.sqrt(total / |s| as real);
  }

  method Largest(s: seq<real>) returns (p: real)
    ensures p == Peak(s)
  {
    p := 0.0;
    for i := 0 to |s|
      invariant p == Peak(s[..i])
    {
      PeakStep(s[..i], s[i], s[..i + 1]);
      if s[i] > p { p := s[i]; }
    }
    assert s[..|s|] == s;
  }

  /** Computes the features and classifies them. */
  method Judge(g: Gates, fs: real, e: Evidence) returns (cls: Class)
    requires fs > 0.0
    ensures cls == ClassOf(g, fs, e)
  {
    hide Rms, Peak, Duration, NoiseFloor;
    var preNoise := RootMeanSquare(g, e.pre);
    var duration := SignificantDuration(e.strong, fs);
    var pga := Largest(e.mags);
    var rms := RootMeanSquare(g, e.mags);
    var floor := if |e.noise| < 5 then 0.0 else Median(e.noise);
    assert floor == NoiseFloor(e.noise) by { FloorIs(e.noise); }
    var f := Features(e.freefall, g.angle(e.gPre, e.gNow), floor, preNoise, duration, pga / Max(rms, 0.000000000001),
                      g.flatness(e.axes));
    return Classify(g, f);
  }

  lemma FloorIs(noise: seq<real>)
    ensures NoiseFloor(noise) == if |noise| < 5 then 0.0 else Median(noise)
  {
    hide Median;
  }

  function ClassOf(g: Gates, fs: real, e: Evidence): Class
    requires fs > 0.0
  {
    Classify(g, FeaturesOf(g, fs, e))
  }

  /** Angles do not depend on how the phone lies. */
  ghost predicate TurnFree(g: Gates, m: F.Rotation) {
    forall a, b :: g.angle(F.Turn(m, a), F.Turn(m, b)) == g.angle(a, b)
  }

  /** The evidence of the same motion in a phone that lies differently. */
  function TurnEvidence(m: F.Rotation, e: Evidence): Evidence {
    e.(gPre := F.Turn(m, e.gPre), gNow := F.Turn(m, e.gNow), axes := F.TurnAll(m, e.axes))
  }

  /** The tonality of the strongest axis is the only feature that can tell; without its gate the class is the same. */
  lemma TurnedClass(g: Gates, fs: real, m: F.Rotation, e: Evidence)
    requires fs > 0.0 && TurnFree(g, m)
    ensures FeaturesOf(g, fs, TurnEvidence(m, e)) == FeaturesOf(g, fs, e).(flatness := g.flatness(F.TurnAll(m, e.axes)))
    ensures g.tonalMaxFlatness <= 0.0 ==> ClassOf(g, fs, TurnEvidence(m, e)) == ClassOf(g, fs, e)
    ensures ClassOf(g, fs, TurnEvidence(m, e)) != ClassOf(g, fs, e) ==>
              {ClassOf(g, fs, TurnEvidence(m, e)), ClassOf(g, fs, e)} == {Tonal, Seismic}
  {
    hide F.Turn, F.TurnAll, Peak, Rms, Duration, NoiseFloor;
  }
}
