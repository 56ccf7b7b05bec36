/**
 The evidence behind a cluster: its footprint, the votes it leaves unexplained, the units that should have felt it
 and did not, and the exact probability that as many units trigger by chance.
 */
module Evidence {
  import opened Basics
  import opened Medians
  import opened Votes
  import opened Linking
  import opened Selection
  import A = Association
  import L = Locator
  import P = PlaneFit
  import Pairs
  import PoissonBinomial
  import Geo
  import R = Roster
  import S = Sorting
  import T = TravelTimes
  import Levels

  /** The tuning of the evidence. Rates, chances, logarithms and the map projection are given. */
  datatype Tuning = Tuning(assoc: A.Tuning, unitKM: real, assocWindow: real, contradictionFactor: real,
                           sensRatioMax: real, timeout: real, unproject: (real, real, real, real) -> (real, real),
                           rate: (real, real) -> real, chance: (real, real) -> real, log10: real -> real)

  /** Besides association's demands: the assumed depth and the P-wave lead are positive. */
  ghost predicate ValidTuning(c: Tuning) { A.ValidTuning(c.assoc) && c.assoc.link.travel.depth > 0.0 }

  function Distance(c: Tuning, lat: real, lng: real, lat2: real, lng2: real): real {
    c.assoc.link.dist(lat, lng, lat2, lng2)
  }

  /** Hypocentral distance of an epicentral one. */
  function Slant(c: Tuning, d: real): real {
    var h := c.assoc.link.travel.depth;
    c.assoc.link.travel.sqrt(d * d + h * h)
  }

  lemma SlantPositive(c: Tuning, d: real)
    requires ValidTuning(c)
    ensures Slant(c, d) > 0.0
  {
    A.SquareSumPositive(d, c.assoc.link.travel.depth, c.assoc.link.travel.depth);
  }

  function UnitsOf(vs: seq<Vote>): set<UnitKey> { set v | v in vs :: v.key.unit }

  // ---------------------------------------------------------------------
  // Sums over the cluster's votes
  // ---------------------------------------------------------------------

  function SourcesOf(vs: seq<Vote>): set<string> { set v, s | v in vs && s in v.sources :: s }

  function PositiveAdets(vs: seq<Vote>): seq<real> {
    if vs == [] then []
    else
      var v := vs[|vs| - 1];
      PositiveAdets(vs[..|vs| - 1]) + if v.adet > 0.0 then [v.adet] else []
  }

  function Taus(c: Tuning, vs: seq<Vote>): (r: seq<real>)
    ensures |r| == |vs|
  {
    S.Map((v: Vote) => Tau(c.assoc.link, v.sigma), vs)
  }

  function Devices(vs: seq<Vote>): int { S.Sum(vs, (v: Vote) => v.devices) }

  function Established(vs: seq<Vote>): int { S.Sum(vs, (v: Vote) => v.established) }

  lemma SourcesMore(vs: seq<Vote>, v: Vote)
    ensures SourcesOf(vs + [v]) == SourcesOf(vs) + v.sources
  {
    forall s | s in SourcesOf(vs) ensures s in SourcesOf(vs + [v]) {
      var w :| w in vs && s in w.sources;
      assert w in vs + [v];
    }
    assert v in vs + [v];
  }

  lemma {:induction false} SumNatural(vs: seq<Vote>)
    ensures Devices(vs) >= 0 && Established(vs) >= 0
  {
    if vs != [] { SumNatural(vs[..|vs| - 1]); }
  }

  /** The largest distance from the epicentre to a vote, at least a unit's size. */
  method Reach(c: Tuning, lat: real, lng: real, vs: seq<Vote>) returns (fp: real)
    ensures fp >= c.unitKM && fp >= 0.0
    ensures forall v :: v in vs ==> Distance(c, lat, lng, v.lat, v.lng) <= fp
    ensures fp == c.unitKM || fp == 0.0 || exists v :: v in vs && fp == Distance(c, lat, lng, v.lat, v.lng)
  {
    hide Distance;
    fp := 0.0;
    for i := 0 to |vs|
      invariant fp >= 0.0 && forall k :: 0 <= k < i ==> Distance(c, lat, lng, vs[k].lat, vs[k].lng) <= fp
      invariant fp == 0.0 || exists v :: v in vs && fp == Distance(c, lat, lng, v.lat, v.lng)
    {
      var d := Distance(c, lat, lng, vs[i].lat, vs[i].lng);
      assert vs[i] in vs;
      fp := Max(fp, d);
    }
    fp := Max(fp, c.unitKM);
  }

  /** The strongest implied shaking at unit distance over the votes. */
  function Strength(vs: seq<Vote>, hypo: seq<real>): (r: real)
    requires |hypo| == |vs|
    ensures r >= 0.0
  {
    if vs == [] then 0.0
    else
      var n := |vs| - 1;
      Max(Strength(vs[..n], hypo[..n]), vs[n].pga * hypo[n] * hypo[n])
  }

  /** ap is the largest distance between two of the votes, or zero. */
  ghost predicate Spans(c: Tuning, vs: seq<Vote>, ap: real) {
    && ap >= 0.0
    && (forall i, j :: 0 <= i < j < |vs| ==> Distance(c, vs[i].lat, vs[i].lng, vs[j].lat, vs[j].lng) <= ap)
    && (ap == 0.0 || exists i, j :: 0 <= i < j < |vs| && ap == Distance(c, vs[i].lat, vs[i].lng, vs[j].lat, vs[j].lng))
  }

  method Aperture(c: Tuning, vs: seq<Vote>) returns (ap: real)
    ensures Spans(c, vs, ap)
  {
    hide Distance;
    ap := 0.0;
    for i := 0 to |vs|
      invariant ap >= 0.0
      invariant forall k, j :: 0 <= k < j < |vs| && k < i ==>
                  Distance(c, vs[k].lat, vs[k].lng, vs[j].lat, vs[j].lng) <= ap
      invariant ap == 0.0
                || exists k, j :: 0 <= k < j < |vs| && ap == Distance(c, vs[k].lat, vs[k].lng, vs[j].lat, vs[j].lng)
    {
      ghost var before := ap;
      for j := i + 1 to |vs|
        invariant ap >= before
        invariant forall m :: i < m < j ==> Distance(c, vs[i].lat, vs[i].lng, vs[m].lat, vs[m].lng) <= ap
        invariant ap == 0.0
                  || exists k, m :: 0 <= k < m < |vs| && ap == Distance(c, vs[k].lat, vs[k].lng, vs[m].lat, vs[m].lng)
      {
        var d := Distance(c, vs[i].lat, vs[i].lng, vs[j].lat, vs[j].lng);
        if d > ap { ap := d; }
      }
    }
  }

  // ---------------------------------------------------------------------
  // Unexplained votes
  // ---------------------------------------------------------------------

  /** What the evidence is measured against. */
  datatype View = View(lat: real, lng: real, fp: real, medA: real, strength: real, inliers: set<UnitKey>,
                       votes: seq<Vote>)

  /** A vote of the group near the event: of an inlier unit, or inside the footprint while its waves crossed it. */
  predicate Near(c: Tuning, w: View, from: real, to: real, v: Vote) {
    v.key.unit in w.inliers || (from <= v.t <= to && Distance(c, w.lat, w.lng, v.lat, v.lng) <= w.fp + 2.0 * c.unitKM)
  }

  function NearVotes(c: Tuning, w: View, from: real, to: real, vs: seq<Vote>): seq<Vote> {
    if vs == [] then []
    else
      var v := vs[|vs| - 1];
      NearVotes(c, w, from, to, vs[..|vs| - 1]) + if Near(c, w, from, to, v) then [v] else []
  }

  function Outliers(c: Tuning, w: View, from: real, to: real, vs: seq<Vote>): nat {
    if vs == [] then 0
    else
      var v := vs[|vs| - 1];
      Outliers(c, w, from, to, vs[..|vs| - 1]) + if Near(c, w, from, to, v) && v.key.unit !in w.inliers then 1 else 0
  }

  method Unexplained(c: Tuning, w: View, from: real, to: real, group: seq<Vote>)
    returns (near: seq<Vote>, outliers: nat)
    ensures near == NearVotes(c, w, from, to, group) && outliers == Outliers(c, w, from, to, group)
  {
    near, outliers := [], 0;
    for i := 0 to |group|
      invariant near == NearVotes(c, w, from, to, group[..i]) && outliers == Outliers(c, w, from, to, group[..i])
    {
      assert group[..i + 1][..i] == group[..i];
      var v := group[i];
      var isIn := v.key.unit in w.inliers;
      if !isIn && (v.t < from || v.t > to) { continue; }
      if isIn || Distance(c, w.lat, w.lng, v.lat, v.lng) <= w.fp + 2.0 * c.unitKM {
        near := near + [v];
        if !isIn { outliers := outliers + 1; }
      }
    }
    assert group[..|group|] == group;
  }

  // ---------------------------------------------------------------------
  // The footprint
  // ---------------------------------------------------------------------

  datatype Field = Field(units: map<UnitKey, Unit>, stations: map<Device, R.Station>, now: real)

  ghost function SurveyAt(c: Tuning, f: Field, k: UnitKey): R.Summary
    requires k in f.units
  {
    R.SurveyOf(f.stations, f.units[k].members, f.now, c.timeout)
  }

  function DistanceTo(c: Tuning, w: View, u: Unit): real { Distance(c, w.lat, w.lng, u.lat, u.lng) }

  /** The unit triggered, or lies inside the footprint, listens, and is about as sensitive as those that did. */
  predicate Belongs(c: Tuning, w: View, k: UnitKey, u: Unit, s: R.Summary) {
    k in w.inliers
    || !(DistanceTo(c, w, u) > w.fp || s.n == 0 || (w.medA > 0.0 && s.adet > c.sensRatioMax * w.medA))
  }

  function PerSquare(a: real, r: real): real
    requires r > 0.0
  {
    assert r * r > 0.0 by { ProductPositive(r, r); }
    a / (r * r)
  }

  /** A silent, listening unit whose least plausible shaking clearly exceeds its threshold. */
  predicate Contradicts(c: Tuning, w: View, k: UnitKey, u: Unit, s: R.Summary)
    requires Slant(c, DistanceTo(c, w, u)) > 0.0
  {
    && k !in w.inliers && s.n > 0 && DistanceTo(c, w, u) <= w.fp + c.unitKM && s.adet > 0.0
    && c.contradictionFactor > 0.0
    && PerSquare(w.strength, Slant(c, DistanceTo(c, w, u))) >= c.contradictionFactor * s.adet
  }

  /** The deviation of the last of the cluster's votes from unit k. */
  function LastSigma(vs: seq<Vote>, k: UnitKey): real {
    if vs == [] then 0.0
    else if vs[|vs| - 1].key.unit == k then vs[|vs| - 1].sigma else LastSigma(vs[..|vs| - 1], k)
  }

  /** The probability that the unit votes by chance while the waves cross it. */
  function ChanceAt(c: Tuning, w: View, k: UnitKey, u: Unit, s: R.Summary): real
    requires Linking.ValidRules(c.assoc.link)
  {
    var tc := c.assoc.link.travel;
    var tau := Tau(c.assoc.link, if k in w.inliers then LastSigma(w.votes, k) else tc.sqrt(0.04 + s.clock * s.clock));
    var r := Slant(c, DistanceTo(c, w, u));
    c.chance(c.rate(u.votes, u.exposure), Min(4.0 * tau, r * (1.0 / tc.vs - 1.0 / tc.vp) + 2.0 * tau))
  }

  ghost function Footprint(c: Tuning, w: View, f: Field): set<UnitKey> {
    set k | k in f.units && Belongs(c, w, k, f.units[k], SurveyAt(c, f, k))
  }

  ghost function Contradictions(c: Tuning, w: View, f: Field): set<UnitKey>
    requires ValidTuning(c)
  {
    set k | k in f.units
            && (SlantPositive(c, DistanceTo(c, w, f.units[k])); Contradicts(c, w, k, f.units[k], SurveyAt(c, f, k)))
  }

  ghost function Chance(c: Tuning, w: View, f: Field, k: UnitKey): real {
    if Linking.ValidRules(c.assoc.link) && k in f.units then ChanceAt(c, w, k, f.units[k], SurveyAt(c, f, k)) else 0.0
  }

  ghost function Chances(c: Tuning, w: View, f: Field, ks: seq<UnitKey>): seq<real> {
    S.Map(k => Chance(c, w, f, k), ks)
  }

  /** The state of the scan after the units ks. */
  ghost predicate Scanned(c: Tuning, w: View, f: Field, ks: seq<UnitKey>, ps: seq<real>, order: seq<UnitKey>,
                          silent: set<UnitKey>)
    requires ValidTuning(c)
  {
    && R.Distinct(order) && (forall k :: k in order <==> k in ks && k in Footprint(c, w, f))
    && (forall k :: k in silent <==> k in ks && k in Contradictions(c, w, f))
    && ps == Chances(c, w, f, order)
  }

  lemma ScanNext(c: Tuning, w: View, f: Field, ks: seq<UnitKey>, ps: seq<real>, order: seq<UnitKey>,
                 silent: set<UnitKey>, k: UnitKey)
    requires ValidTuning(c) && Scanned(c, w, f, ks, ps, order, silent) && k !in ks && k in f.units
    ensures Scanned(c, w, f, ks + [k], if k in Footprint(c, w, f) then ps + [Chance(c, w, f, k)] else ps,
                    if k in Footprint(c, w, f) then order + [k] else order,
                    if k in Contradictions(c, w, f) then silent + {k} else silent)
    ensures k !in silent
  {
    hide Footprint, Contradictions, Chance, S.Map;
    S.MapAppend(j => Chance(c, w, f, j), order, k);
    forall i | 0 <= i < |order| ensures order[i] != k { assert order[i] in order; }
  }

  lemma ScanStarts(c: Tuning, w: View, f: Field)
    requires ValidTuning(c)
    ensures Scanned(c, w, f, [], [], [], {})
  {
  }

  lemma ScanDone(c: Tuning, w: View, f: Field, ks: seq<UnitKey>, ps: seq<real>, order: seq<UnitKey>,
                 silent: set<UnitKey>)
    requires ValidTuning(c) && Scanned(c, w, f, ks, ps, order, silent) && R.Lists(ks, f.units.Keys)
    ensures R.Lists(order, Footprint(c, w, f)) && ps == Chances(c, w, f, order) && silent == Contradictions(c, w, f)
  {
    hide Belongs, Contradicts, Chances, R.SurveyOf;
    ListSize(order, Footprint(c, w, f));
  }

  /** What the survey decides about a unit. */
  lemma UnitDecided(c: Tuning, w: View, f: Field, k: UnitKey)
    requires ValidTuning(c) && k in f.units
    ensures Slant(c, DistanceTo(c, w, f.units[k])) > 0.0
    ensures k in Footprint(c, w, f) <==> Belongs(c, w, k, f.units[k], SurveyAt(c, f, k))
    ensures k in Contradictions(c, w, f) <==> Contradicts(c, w, k, f.units[k], SurveyAt(c, f, k))
    ensures Chance(c, w, f, k) == ChanceAt(c, w, k, f.units[k], SurveyAt(c, f, k))
  {
    hide Belongs, R.SurveyOf, ChanceAt;
    SlantPositive(c, DistanceTo(c, w, f.units[k]));
    hide Slant, DistanceTo;
  }

  /** Visits every unit once. */
  method Scan(c: Tuning, w: View, f: Field) returns (ps: seq<real>, contradictions: nat, ghost order: seq<UnitKey>)
    requires ValidTuning(c)
    ensures R.Lists(order, Footprint(c, w, f)) && ps == Chances(c, w, f, order)
    ensures contradictions == |Contradictions(c, w, f)|
  {
    hide Belongs, Contradicts, ChanceAt, R.SurveyOf, Slant, Scanned, Chances, Footprint, Contradictions, Chance,
         ValidTuning;
    assert Linking.ValidRules(c.assoc.link) by { TuningValid(c); }
    var keys := R.Enumerate(f.units.Keys);
    ps, contradictions, order := [], 0, [];
    ghost var silent: set<UnitKey> := {};
    ScanStarts(c, w, f);
    assert keys[..0] == [];
    for i := 0 to |keys|
      invariant Scanned(c, w, f, keys[..i], ps, order, silent) && contradictions == |silent|
    {
      var k := keys[i];
      assert k in keys;
      assert keys[..i + 1] == keys[..i] + [k];
      assert k !in keys[..i];
      var u := f.units[k];
      var s := R.Survey(f.stations, u.members, f.now, c.timeout);
      UnitDecided(c, w, f, k);
      ScanNext(c, w, f, keys[..i], ps, order, silent, k);
      if Contradicts(c, w, k, u, s) {
        contradictions, silent := contradictions + 1, silent + {k};
      }
      if Belongs(c, w, k, u, s) {
        ps, order := ps + [ChanceAt(c, w, k, u, s)], order + [k];
      }
    }
    assert keys[..|keys|] == keys;
    ScanDone(c, w, f, keys, ps, order, silent);
  }

  lemma TuningValid(c: Tuning)
    requires ValidTuning(c)
    ensures Linking.ValidRules(c.assoc.link)
  {
  }

  lemma ListSize(xs: seq<UnitKey>, s: set<UnitKey>)
    requires R.Distinct(xs) && forall x :: x in xs <==> x in s
    ensures R.Lists(xs, s)
    decreases |xs|
  {
    if xs == [] {
      assert s == {};
    } else {
      var n := |xs| - 1;
      assert xs == xs[..n] + [xs[n]];
      forall y ensures y in xs[..n] <==> y in s - {xs[n]} {
        if y in xs[..n] {
          var i :| 0 <= i < n && xs[i] == y;
          assert xs[i] in xs;
        }
      }
      ListSize(xs[..n], s - {xs[n]});
      assert xs[n] in xs;
    }
  }

  // ---------------------------------------------------------------------
  // The metrics
  // ---------------------------------------------------------------------

  function Ratio(a: nat, b: nat): real
    requires b > 0
  {
    a as real / b as real
  }

  lemma RatioBounds(a: nat, b: nat)
    requires b > 0
    ensures 0.0 <= Ratio(a, b) && (a > 0 ==> Ratio(a, b) > 0.0)
    ensures Ratio(a, b) <= 1.0 <==> a <= b
  {
    if a <= b { assert a as real <= 1.0 * b as real; }
  }

  function MedianOr(xs: seq<real>): real { if xs == [] then 0.0 else Median(xs) }

  function ViewOf(c: Tuning, cl: A.Cluster, lat: real, lng: real, fp: real): View
    requires |cl.fit.hypo| == |cl.votes|
  {
    View(lat, lng, fp, MedianOr(PositiveAdets(cl.votes)), Strength(cl.votes, cl.fit.hypo), UnitsOf(cl.votes), cl.votes)
  }

  /** When the event's waves were crossing the footprint. */
  function CrossingEnd(c: Tuning, cl: A.Cluster, fp: real): real
    requires Linking.ValidRules(c.assoc.link)
  {
    cl.fit.originT + Slant(c, fp) / c.assoc.link.travel.vs + 30.0
  }

  function LogOf(c: Tuning, p: real): real { if p <= 0.0 then -300.0 else Max(-300.0, c.log10(p)) }

  /** The number of effectively independent hypotheses: epicentres by origin times. */
  function Trials(c: Tuning, halfWidth: real, tau: real): (r: real)
    requires Linking.ValidRules(c.assoc.link) && tau > 0.0
  {
    var rho := c.assoc.link.travel.vs * 2.0 * tau;
    assert rho > 0.0 by { ProductPositive(c.assoc.link.travel.vs, 2.0 * tau); }
    var q := 2.0 * halfWidth / rho;
    Max(1.0, q * q) * Max(1.0, c.assocWindow / (2.0 * tau))
  }

  function Points(c: Tuning, lat: real, lng: real, vs: seq<Vote>): seq<P.Point> {
    S.Map((v: Vote) => var (x, y) := c.assoc.plane(lat, lng, v.lat, v.lng); P.Point(x, y, v.t), vs)
  }

  /** The footprint reaches every vote and no further than the farthest one (or a unit's size). */
  ghost predicate Reaches(c: Tuning, lat: real, lng: real, vs: seq<Vote>, fp: real) {
    && (forall v :: v in vs ==> Distance(c, lat, lng, v.lat, v.lng) <= fp)
    && (fp == c.unitKM || fp == 0.0 || exists v :: v in vs && fp == Distance(c, lat, lng, v.lat, v.lng))
  }

  /** The counts and fractions of the metrics, from the footprint and the contradictions. */
  ghost predicate Counted(c: Tuning, cl: A.Cluster, f: Field, w: View, m: Levels.Metrics)
    requires ValidTuning(c)
  {
    var n, out := |cl.votes|, Outliers(c, w, cl.fit.originT - 5.0, CrossingEnd(c, cl, w.fp), cl.group);
    && n > 0 && m.inlierUnits == n && m.outlierUnits == out && m.consistency == Ratio(n, n + out)
    && m.sources == |SourcesOf(cl.votes)| && m.established == Established(cl.votes)
    && m.establishedFrac
       == (if Devices(cl.votes) > 0 then Established(cl.votes) as real / Devices(cl.votes) as real else 0.0)
    && m.footprintFraction == (if |Footprint(c, w, f)| > 0 then Ratio(n, |Footprint(c, w, f)|) else 0.0)
    && m.contradictionFrac
       == (if |Contradictions(c, w, f)| > 0 then Ratio(|Contradictions(c, w, f)|, |Contradictions(c, w, f)| + n)
           else 0.0)
  }

  /** p is the exact probability that at least n of the footprint's units vote by chance, in whatever order listed. */
  ghost predicate ExactTail(c: Tuning, w: View, f: Field, n: nat, p: real) {
    forall order :: R.Lists(order, Footprint(c, w, f)) ==> p == PoissonBinomial.Tail(Chances(c, w, f, order), n)
  }

  lemma TailAnyOrder(c: Tuning, w: View, f: Field, n: nat, order: seq<UnitKey>)
    requires R.Lists(order, Footprint(c, w, f))
    ensures ExactTail(c, w, f, n, PoissonBinomial.Tail(Chances(c, w, f, order), n))
  {
    hide PoissonBinomial.Tail, Footprint, S.Map;
    var s := Footprint(c, w, f);
    forall other | R.Lists(other, s)
      ensures PoissonBinomial.Tail(Chances(c, w, f, order), n) == PoissonBinomial.Tail(Chances(c, w, f, other), n)
    {
      R.ListsArePermutations(order, s);
      R.ListsArePermutations(other, s);
      S.MapPermutation(k => Chance(c, w, f, k), order, other);
      PoissonBinomial.TailPermutation(Chances(c, w, f, order), Chances(c, w, f, other), n);
    }
  }

  method SumUp(c: Tuning, vs: seq<Vote>)
    returns (sources: set<string>, devices: nat, established: nat, adets: seq<real>, taus: seq<real>)
    ensures sources == SourcesOf(vs) && devices == Devices(vs) && established == Established(vs)
    ensures adets == PositiveAdets(vs) && taus == Taus(c, vs)
  {
    sources, devices, established, adets, taus := {}, 0, 0, [], [];
    assert SourcesOf(vs[..0]) == {};
    for i := 0 to |vs|
      invariant sources == SourcesOf(vs[..i]) && devices == Devices(vs[..i]) && established == Established(vs[..i])
      invariant adets == PositiveAdets(vs[..i]) && taus == Taus(c, vs[..i])
    {
      var v := vs[i];
      assert vs[..i + 1][..i] == vs[..i] && vs[..i + 1] == vs[..i] + [v];
      SourcesMore(vs[..i], v);
      hide SourcesOf, Tau;
      sources, devices, established := sources + v.sources, devices + v.devices, established + v.established;
      if v.adet > 0.0 { adets := adets + [v.adet]; }
      taus := taus + [Tau(c.assoc.link, v.sigma)];
    }
    assert vs[..|vs|] == vs;
  }

  /** The median of positive values is positive. */
  lemma {:induction false} SomeBelow(xs: seq<real>) returns (lo: real)
    requires forall x :: x in xs ==> x > 0.0
    ensures lo > 0.0 && forall x :: x in xs ==> lo <= x
  {
    if xs == [] {
      lo := 1.0;
    } else {
      var n := |xs| - 1;
      assert xs == xs[..n] + [xs[n]];
      assert xs[n] in xs;
      forall x | x in xs[..n] ensures x > 0.0 { assert x in xs; }
      lo := SomeBelow(xs[..n]);
      lo := if xs[n] < lo then xs[n] else lo;
    }
  }

  lemma {:induction false} SomeAbove(xs: seq<real>) returns (hi: real)
    ensures forall x :: x in xs ==> x <= hi
  {
    hi := 0.0;
    if xs != [] {
      var n := |xs| - 1;
      assert xs == xs[..n] + [xs[n]];
      hi := SomeAbove(xs[..n]);
      hi := if xs[n] > hi then xs[n] else hi;
    }
  }

  lemma TypicalTau(c: Tuning, vs: seq<Vote>)
    requires ValidTuning(c) && vs != []
    ensures Median(Taus(c, vs)) > 0.0
  {
    hide Median, Tau;
    var ts := Taus(c, vs);
    A.TausPositive(c.assoc, 0.0, 0.0, vs);
    var obs := A.AllObs(c.assoc, 0.0, 0.0, vs);
    TausAreTolerances(c, vs, obs);
    var lo := SomeBelow(ts);
    var hi := SomeAbove(ts);
    MedianBounds(ts, lo, hi);
  }

  lemma {:induction false} TausAreTolerances(c: Tuning, vs: seq<Vote>, obs: seq<T.Obs>)
    requires |obs| == |vs| && forall i :: 0 <= i < |vs| ==> obs[i].tau == Tau(c.assoc.link, vs[i].sigma)
    requires forall o :: o in obs ==> o.tau > 0.0
    ensures forall x :: x in Taus(c, vs) ==> x > 0.0
  {
    if vs != [] {
      var n := |vs| - 1;
      assert obs[n] in obs;
      TausAreTolerances(c, vs[..n], obs[..n]);
      hide Tau;
      assert Taus(c, vs) == Taus(c, vs[..n]) + [Tau(c.assoc.link, vs[n].sigma)];
    }
  }

  method Strongest(vs: seq<Vote>, hypo: seq<real>) returns (k: real)
    requires |hypo| == |vs|
    ensures k == Strength(vs, hypo)
  {
    k := 0.0;
    for i := 0 to |vs|
      invariant k == Strength(vs[..i], hypo[..i])
    {
      assert vs[..i + 1][..i] == vs[..i] && hypo[..i + 1][..i] == hypo[..i];
      k := Max(k, vs[i].pga * hypo[i] * hypo[i]);
    }
    assert vs[..|vs|] == vs && hypo[..|vs|] == hypo;
  }

  /** The sweep is the plane wave through the votes near the event, explained or not. */
  ghost predicate Swept(c: Tuning, cl: A.Cluster, w: View, m: Levels.Metrics)
    requires ValidTuning(c)
  {
    var near := NearVotes(c, w, cl.fit.originT - 5.0, CrossingEnd(c, cl, w.fp), cl.group);
    P.WaveOf(Points(c, w.lat, w.lng, near), c.assoc.link.travel.sqrt, m.sweepVel, m.sweepR2)
  }

  /** What the metrics of a cluster mean. w is the view they were taken from, p the chance probability. */
  ghost predicate Weighed(c: Tuning, cl: A.Cluster, f: Field, m: Levels.Metrics, lat: real, lng: real, w: View, p: real)
    requires ValidTuning(c)
  {
    && |cl.fit.hypo| == |cl.votes| && (lat, lng) == c.unproject(cl.lat0, cl.lng0, cl.fit.x, cl.fit.y)
    && w == ViewOf(c, cl, lat, lng, m.footprintKM) && Reaches(c, lat, lng, cl.votes, m.footprintKM)
    && Counted(c, cl, f, w, m)
    && ExactTail(c, w, f, |cl.votes|, p) && 0.0 <= p <= 1.0
    && Median(Taus(c, cl.votes)) > 0.0
    && m.log10PAdj == Min(0.0, LogOf(c, p) + c.log10(Trials(c, cl.fit.halfWidth, Median(Taus(c, cl.votes)))))
    && Swept(c, cl, w, m) && 0.0 <= m.sweepR2 <= 1.0 && 0.0 < m.sweepVel <= 99.0
    && m.rmsSec == cl.fit.rms && Spans(c, cl.votes, m.apertureKM)
  }

  ghost predicate Assessed(c: Tuning, cl: A.Cluster, f: Field, m: Levels.Metrics, lat: real, lng: real)
    requires ValidTuning(c)
  {
    exists w, p :: Weighed(c, cl, f, m, lat, lng, w, p)
  }

  /** Weighs a cluster against everything the network knows around it. */
  method Evaluate(c: Tuning, cl: A.Cluster, f: Field)
    returns (m: Levels.Metrics, lat: real, lng: real, ghost w: View, ghost p: real)
    requires ValidTuning(c) && A.Fitted(c.assoc, cl)
    ensures Weighed(c, cl, f, m, lat, lng, w, p)
    ensures Assessed(c, cl, f, m, lat, lng)
  {
    hide Footprint, Contradictions, Chances, Outliers, NearVotes, Reaches, Strength, UnitsOf, SourcesOf, Taus, Median,
         Devices, Established, PositiveAdets, ExactTail, Trials, LogOf, CrossingEnd, PoissonBinomial.Tail, Counted,
         Ratio, ValidTuning, A.Fitted, Spans;
    FittedShape(c, cl);
    var n := |cl.votes|;
    var at := c.unproject(cl.lat0, cl.lng0, cl.fit.x, cl.fit.y);
    lat, lng := at.0, at.1;
    var sources, devices, established, adets, taus := SumUp(c, cl.votes);
    var fp := Reach(c, lat, lng, cl.votes);
    ReachesAll(c, lat, lng, cl.votes, fp);
    var strength := Strongest(cl.votes, cl.fit.hypo);
    var v := View(lat, lng, fp, MedianOr(adets), strength, UnitsOf(cl.votes), cl.votes);
    var near, out := Unexplained(c, v, cl.fit.originT - 5.0, CrossingEnd(c, cl, fp), cl.group);
    var vel, r2 := P.PlaneWave(Points(c, lat, lng, near), c.assoc.link.travel.sqrt);
    var ps, contradictions, order := Scan(c, v, f);
    var tail := PoissonBinomial.PoissonBinomialTail(ps, n);
    TailAnyOrder(c, v, f, n, order);
    TypicalTau(c, cl.votes);
    ScanSize(c, v, f, order);
    var aperture := Aperture(c, cl.votes);
    w, p := v, tail;
    m := Levels.Metrics(n, out, Ratio(n, n + out), if |ps| > 0 then Ratio(n, |ps|) else 0.0, fp, |sources|, established,
                        if devices > 0 then established as real / devices as real else 0.0,
                        Min(0.0, LogOf(c, tail) + c.log10(Trials(c, cl.fit.halfWidth, Median(taus)))),
                        cl.fit.rms, aperture, vel, r2,
                        if contradictions > 0 then Ratio(contradictions, contradictions + n) else 0.0);
    MetricsCounted(c, cl, f, w, m, |ps|, contradictions, devices);
  }

  lemma MetricsCounted(c: Tuning, cl: A.Cluster, f: Field, w: View, m: Levels.Metrics, k: nat, q: nat, devices: nat)
    requires ValidTuning(c) && |cl.votes| > 0 && k == |Footprint(c, w, f)| && q == |Contradictions(c, w, f)|
    requires m.inlierUnits == |cl.votes| && m.sources == |SourcesOf(cl.votes)| && m.established == Established(cl.votes)
    requires m.outlierUnits == Outliers(c, w, cl.fit.originT - 5.0, CrossingEnd(c, cl, w.fp), cl.group)
    requires devices == Devices(cl.votes)
    requires m.establishedFrac == (if devices > 0 then m.established as real / devices as real else 0.0)
    requires m.consistency == Ratio(|cl.votes|, |cl.votes| + m.outlierUnits)
    requires m.footprintFraction == (if k > 0 then Ratio(|cl.votes|, k) else 0.0)
    requires m.contradictionFrac == (if q > 0 then Ratio(q, q + |cl.votes|) else 0.0)
    ensures Counted(c, cl, f, w, m)
  {
    hide Footprint, Contradictions, Outliers, SourcesOf, Devices, Established, Ratio, CrossingEnd;
  }

  lemma FittedShape(c: Tuning, cl: A.Cluster)
    requires ValidTuning(c) && A.Fitted(c.assoc, cl)
    ensures |cl.fit.hypo| == |cl.votes| >= 2 && Linking.ValidRules(c.assoc.link)
  {
  }

  lemma ReachesAll(c: Tuning, lat: real, lng: real, vs: seq<Vote>, fp: real)
    requires forall v :: v in vs ==> Distance(c, lat, lng, v.lat, v.lng) <= fp
    requires fp == c.unitKM || fp == 0.0 || exists v :: v in vs && fp == Distance(c, lat, lng, v.lat, v.lng)
    ensures Reaches(c, lat, lng, vs, fp)
  {
  }

  lemma ScanSize(c: Tuning, w: View, f: Field, order: seq<UnitKey>)
    requires R.Lists(order, Footprint(c, w, f))
    ensures |Chances(c, w, f, order)| == |Footprint(c, w, f)|
  {
  }

  // ---------------------------------------------------------------------
  // Independence
  // ---------------------------------------------------------------------

  /** Every unit that triggered belongs to the footprint. */
  lemma TriggeredBelong(c: Tuning, w: View, f: Field)
    requires w.inliers <= f.units.Keys
    ensures w.inliers <= Footprint(c, w, f)
  {
    hide SurveyAt;
  }

  lemma {:induction false} UnitsCount(vs: seq<Vote>)
    requires UnitsDiffer(vs)
    ensures |UnitsOf(vs)| == |vs|
  {
    if vs == [] {
      assert UnitsOf(vs) == {};
    } else {
      var n := |vs| - 1;
      UnitsCount(vs[..n]);
      assert vs == vs[..n] + [vs[n]];
      UnitsMore(vs[..n], vs[n]);
      NewUnit(vs, n);
    }
  }

  lemma NewUnit(vs: seq<Vote>, n: nat)
    requires n < |vs| && forall i :: 0 <= i < n ==> vs[i].key.unit != vs[n].key.unit
    ensures vs[n].key.unit !in UnitsOf(vs[..n])
  {
  }

  lemma UnitsMore(vs: seq<Vote>, v: Vote)
    ensures UnitsOf(vs + [v]) == UnitsOf(vs) + {v.key.unit}
  {
    forall k | k in UnitsOf(vs) ensures k in UnitsOf(vs + [v]) {
      var x :| x in vs && x.key.unit == k;
      assert x in vs + [v];
    }
    assert v in vs + [v];
  }

  /**
   Independent units: when no unit votes twice in the cluster, the footprint fraction is a fraction. In every case it
   exceeds one exactly when the cluster has more votes than the footprint has units; then the chance probability is
   zero, as if the coincidence were impossible.
   */
  lemma FractionOfFootprint(c: Tuning, cl: A.Cluster, f: Field, w: View, m: Levels.Metrics, p: real)
    requires ValidTuning(c) && Counted(c, cl, f, w, m) && ExactTail(c, w, f, |cl.votes|, p)
    requires w.inliers == UnitsOf(cl.votes) && w.inliers <= f.units.Keys
    ensures 0.0 < m.consistency <= 1.0 && 0.0 <= m.contradictionFrac < 1.0
    ensures UnitsDiffer(cl.votes) ==> m.footprintFraction <= 1.0
    ensures m.footprintFraction > 1.0 <==> |cl.votes| > |Footprint(c, w, f)|
    ensures m.footprintFraction > 1.0 ==> p == 0.0 && LogOf(c, p) == -300.0
  {
    hide Footprint, Contradictions, Chances, Outliers, SourcesOf, Devices, Established, UnitsOf, Ratio,
         PoissonBinomial.Tail;
    var n, out, k, q := |cl.votes|, m.outlierUnits, |Footprint(c, w, f)|, |Contradictions(c, w, f)|;
    RatioBounds(n, n + out);
    if k > 0 { RatioBounds(n, k); }
    if q > 0 {
      RatioBounds(q, q + n);
      StrictRatio(q, n);
    }
    TriggeredBelong(c, w, f);
    SubsetSize(w.inliers, Footprint(c, w, f));
    if UnitsDiffer(cl.votes) { UnitsCount(cl.votes); }
    FirstUnit(cl.votes);
    R.ListExists(Footprint(c, w, f));
    var order :| R.Lists(order, Footprint(c, w, f));
    ScanSize(c, w, f, order);
    PoissonBinomial.TailBounds(Chances(c, w, f, order), n);
  }

  /** No unit has two votes in the cluster. */
  predicate UnitsDiffer(vs: seq<Vote>) { forall i, j :: 0 <= i < j < |vs| ==> vs[i].key.unit != vs[j].key.unit }

  /** The share of the footprint a cluster of n votes has in a field. */
  ghost function Share(c: Tuning, w: View, f: Field, n: nat): real {
    if |Footprint(c, w, f)| > 0 then Ratio(n, |Footprint(c, w, f)|) else 0.0
  }

  /** The share is a fraction in every field that holds the cluster's units. */
  ghost predicate AlwaysFraction(c: Tuning, w: View, vs: seq<Vote>) {
    forall f: Field :: UnitsOf(vs) <= f.units.Keys ==> Share(c, w, f, |vs|) <= 1.0
  }

  lemma {:induction false} UnitsRepeated(vs: seq<Vote>)
    ensures |UnitsOf(vs)| <= |vs|
    ensures !UnitsDiffer(vs) ==> |UnitsOf(vs)| < |vs|
  {
    if vs == [] {
      assert UnitsOf(vs) == {};
    } else {
      var n := |vs| - 1;
      UnitsRepeated(vs[..n]);
      assert vs == vs[..n] + [vs[n]];
      UnitsMore(vs[..n], vs[n]);
      if vs[n].key.unit in UnitsOf(vs[..n]) {
        assert UnitsOf(vs) == UnitsOf(vs[..n]);
      } else if UnitsDiffer(vs[..n]) {
        forall i | 0 <= i < n ensures vs[i].key.unit != vs[n].key.unit { assert vs[..n][i] in vs[..n]; }
      }
    }
  }

  /**
   Exactly when the footprint fraction is a fraction whatever the network around the cluster looks like: when no unit
   votes twice in it. A second run of one unit (an S wave after its P wave) breaks it.
   */
  lemma FractionExactly(c: Tuning, w: View, vs: seq<Vote>)
    requires w.inliers == UnitsOf(vs)
    ensures AlwaysFraction(c, w, vs) <==> UnitsDiffer(vs)
  {
    hide UnitsOf, Ratio, Belongs, SurveyAt, Footprint, UnitsDiffer;
    if UnitsDiffer(vs) {
      forall f: Field | UnitsOf(vs) <= f.units.Keys
        ensures Share(c, w, f, |vs|) <= 1.0 { DifferentUnitsShare(c, w, f, vs); }
    } else {
      var f := OnlyTheUnits(c, w, vs);
      UnitsRepeated(vs);
      assert |vs| > 0;
      assert |Footprint(c, w, f)| > 0 by { FirstUnit(vs); }
      RatioBounds(|vs|, |Footprint(c, w, f)|);
      assert Share(c, w, f, |vs|) > 1.0;
    }
  }

  lemma DifferentUnitsShare(c: Tuning, w: View, f: Field, vs: seq<Vote>)
    requires w.inliers == UnitsOf(vs) && UnitsOf(vs) <= f.units.Keys && UnitsDiffer(vs)
    ensures Share(c, w, f, |vs|) <= 1.0
  {
    hide UnitsOf, Ratio, Footprint;
    UnitsCount(vs);
    TriggeredBelong(c, w, f);
    SubsetSize(w.inliers, Footprint(c, w, f));
    if |Footprint(c, w, f)| > 0 { RatioBounds(|vs|, |Footprint(c, w, f)|); }
  }

  /** A field holding the cluster's units and no other: they are its footprint. */
  lemma OnlyTheUnits(c: Tuning, w: View, vs: seq<Vote>) returns (f: Field)
    requires w.inliers == UnitsOf(vs)
    ensures f.units.Keys == UnitsOf(vs) && Footprint(c, w, f) == UnitsOf(vs)
  {
    hide UnitsOf, SurveyAt;
    f := Field(map k | k in UnitsOf(vs) :: Unit(k, Geo.Cell(0, 0), 0.0, 0.0, {}, 0.0, 0.0, 0.0, map[], []), map[], 0.0);
    TriggeredBelong(c, w, f);
  }

  lemma StrictRatio(q: nat, n: nat)
    requires q > 0 && n > 0
    ensures Ratio(q, q + n) < 1.0
  {
  }

  lemma FirstUnit(vs: seq<Vote>)
    ensures vs != [] ==> vs[0].key.unit in UnitsOf(vs)
  {
  }

  /** A unit's vote at time t, and where the hypothesis at (x, y) sees it. */
  function PhaseVote(k: UnitKey, lat: real, lng: real, t: real): Vote {
    Pairs.VoteAt(VoteKey(k, t.Floor), (lat, lng), t, 0.0)
  }

  /** Seen from the source, a vote at a phase's travel time lies exactly on that phase's origin time. */
  lemma OnThePhase(c: T.Config, x: real, y: real, o: T.Obs, t0: real)
    requires T.ValidConfig(c) && o.tau > 0.0
    ensures o.t == t0 + T.Hypo(c, x, y, o) / c.vp ==>
              T.POrigin(c, x, y, o) == t0 && T.Consistent(c, x, y, o, t0) && !L.PrefersS(c, x, y, o, t0)
    ensures o.t == t0 + T.Hypo(c, x, y, o) / c.vs ==>
              T.SOrigin(c, x, y, o) == t0 && T.Consistent(c, x, y, o, t0)
              && (L.PrefersS(c, x, y, o, t0) || T.POrigin(c, x, y, o) == t0)
  {
    hide T.Hypo;
  }

  /** Two observations lying exactly on the P and the S phase of a source are classified as such by it. */
  lemma ExactFit(c: T.Config, x: real, y: real, obs: seq<T.Obs>, t0: real) returns (f: L.Fit)
    requires T.ValidConfig(c) && |obs| == 2 && obs[0].tau > 0.0 && obs[1].tau > 0.0
    requires obs[0].t == t0 + T.Hypo(c, x, y, obs[0]) / c.vp && obs[1].t == t0 + T.Hypo(c, x, y, obs[1]) / c.vs
    ensures L.Classified(c, obs, f) && f.inlier == [true, true] && f.nInliers == 2
    ensures f.phase[0] == L.P && (T.POrigin(c, x, y, obs[1]) != t0 ==> f.phase[1] == L.S)
  {
    OnThePhase(c, x, y, obs[0], t0);
    OnThePhase(c, x, y, obs[1], t0);
    hide T.Hypo, T.POrigin, T.SOrigin, T.Consistent, L.PrefersS;
    var second := if L.PrefersS(c, x, y, obs[1], t0) then L.S else L.P;
    f := L.Fit(x, y, t0, [true, true], [L.P, second], [0.0, 0.0],
               [T.Hypo(c, x, y, obs[0]), T.Hypo(c, x, y, obs[1])], 2, 0.0, 0.0, 0, 0.0);
    assert T.Consistents(c, x, y, obs, t0) == {0, 1};
  }

  /**
   The other case occurs: whatever the tuning, the unit, the source and its origin time, a vote at the P arrival and a
   vote at the S arrival make a fitted cluster in which the unit votes twice.
   */
  lemma BothPhases(c: Tuning, k: UnitKey, lat: real, lng: real, x: real, y: real, t0: real) returns (cl: A.Cluster)
    requires ValidTuning(c)
    ensures A.Fitted(c.assoc, cl) && |cl.votes| == 2 && UnitsOf(cl.votes) == {k} && !UnitsDiffer(cl.votes)
    ensures cl.fit.phase[0] == L.P && (cl.votes[1].t != cl.votes[0].t ==> cl.fit.phase[1] == L.S)
    ensures forall w: View :: w.inliers == {k} ==> !AlwaysFraction(c, w, cl.votes)
  {
    hide T.Hypo, A.ObsOf, AlwaysFraction, L.Classified, UnitsDiffer;
    var tc := c.assoc.link.travel;
    var h := T.Hypo(tc, x, y, UnitObs(c, k, lat, lng));
    var vs := PhaseVotes(c, k, lat, lng, x, y, t0);
    var obs := A.AllObs(c.assoc, lat, lng, vs);
    SeenFrom(c, k, lat, lng, x, y, vs[0].t);
    SeenFrom(c, k, lat, lng, x, y, vs[1].t);
    A.TausPositive(c.assoc, lat, lng, vs);
    assert obs[0] in obs && obs[1] in obs;
    var f := ExactFit(tc, x, y, obs, t0);
    cl := A.Cluster(vs, f, lat, lng, vs);
    assert T.POrigin(tc, x, y, obs[1]) == vs[1].t - h / tc.vp;
    OneUnit(vs, k);
    forall w: View | w.inliers == {k} ensures !AlwaysFraction(c, w, vs) { FractionExactly(c, w, vs); }
  }

  lemma SeenFrom(c: Tuning, k: UnitKey, lat: real, lng: real, x: real, y: real, t: real)
    ensures var o := A.ObsOf(c.assoc, lat, lng, PhaseVote(k, lat, lng, t));
            o.t == t
            && T.Hypo(c.assoc.link.travel, x, y, o)
               == T.Hypo(c.assoc.link.travel, x, y, A.ObsOf(c.assoc, lat, lng, PhaseVote(k, lat, lng, 0.0)))
  {
    hide Tau, T.Hypo;
    var o := A.ObsOf(c.assoc, lat, lng, PhaseVote(k, lat, lng, t));
    var o0 := A.ObsOf(c.assoc, lat, lng, PhaseVote(k, lat, lng, 0.0));
    Pairs.SameHypo(c.assoc.link.travel, x, y, o, o0);
  }

  lemma OneUnit(vs: seq<Vote>, k: UnitKey)
    requires |vs| == 2 && vs[0].key.unit == k && vs[1].key.unit == k
    ensures UnitsOf(vs) == {k} && !UnitsDiffer(vs)
  {
    assert vs[0] in vs;
  }

  /** A unit's votes at the P and the S arrival from a source at (x, y). */
  function PhaseVotes(c: Tuning, k: UnitKey, lat: real, lng: real, x: real, y: real, t0: real): seq<Vote>
    requires T.ValidConfig(c.assoc.link.travel)
  {
    var tc := c.assoc.link.travel;
    var h := T.Hypo(tc, x, y, UnitObs(c, k, lat, lng));
    [PhaseVote(k, lat, lng, t0 + h / tc.vp), PhaseVote(k, lat, lng, t0 + h / tc.vs)]
  }

  function UnitObs(c: Tuning, k: UnitKey, lat: real, lng: real): T.Obs {
    A.ObsOf(c.assoc, lat, lng, PhaseVote(k, lat, lng, 0.0))
  }

  /**
   The engine does put such clusters together: from any node of the first grid around the unit whose phases are more
   than two tolerances apart, the two votes are always extracted as one cluster, in which the unit votes twice.
   */
  lemma BothPhasesExtracted(c: Tuning, k: UnitKey, lat: real, lng: real, x: real, y: real, t0: real)
    requires ValidTuning(c)
    requires var tc, o := c.assoc.link.travel, UnitObs(c, k, lat, lng);
             Pairs.OnFirstGrid(tc, o, x, y) && Pairs.Lag(tc, x, y, o) > 2.0 * o.tau
    ensures var vs := PhaseVotes(c, k, lat, lng, x, y, t0);
            && (exists cls :: A.ExtractionOf(c.assoc, vs, cls))
            && (forall cls: seq<A.Cluster> :: A.ExtractionOf(c.assoc, vs, cls) ==>
                  |cls| == 1 && cls[0].votes == vs && A.Fitted(c.assoc, cls[0]))
            && UnitsOf(vs) == {k} && !UnitsDiffer(vs)
            && forall w: View :: w.inliers == {k} ==> !AlwaysFraction(c, w, vs)
  {
    var vs := PhaseVotes(c, k, lat, lng, x, y, t0);
    ArePhases(c, k, lat, lng, x, y, t0);
    hide *;
    Pairs.PhasesExtracted(c.assoc, vs, x, y);
    OneUnit(vs, k);
    forall w: View | w.inliers == {k} ensures !AlwaysFraction(c, w, vs) { FractionExactly(c, w, vs); }
  }

  lemma ArePhases(c: Tuning, k: UnitKey, lat: real, lng: real, x: real, y: real, t0: real)
    requires ValidTuning(c)
    requires var tc, o := c.assoc.link.travel, UnitObs(c, k, lat, lng);
             Pairs.OnFirstGrid(tc, o, x, y) && Pairs.Lag(tc, x, y, o) > 2.0 * o.tau
    ensures var vs := PhaseVotes(c, k, lat, lng, x, y, t0);
            && |vs| == 2 && vs[0].key.unit == k && vs[1].key.unit == k
            && Linking.ValidRules(c.assoc.link) && A.ValidTuning(c.assoc)
            && Pairs.PhaseVotes(c.assoc, vs, x, y)
  {
    var vs := PhaseVotes(c, k, lat, lng, x, y, t0);
    SeenFrom(c, k, lat, lng, x, y, vs[0].t);
    SeenFrom(c, k, lat, lng, x, y, vs[1].t);
    hide T.Hypo, Tau, Pairs.HalfWidth, L.GridAt, L.StepOf;
  }
}
