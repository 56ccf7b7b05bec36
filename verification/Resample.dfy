/**
 The resampler: irregular input to a uniform grid locked to absolute time. A segment of the stream
 without gaps yields every grid index it spans exactly once, in order, each value interpolated.
 */
module Resample {
  import opened Basics
  import opened Filter
  import S = Sorting

  /** Time in seconds and a three-component acceleration. */
  datatype Sample = Sample(t: real, v: Vec3)

  /** The instant of grid index k. */
  function GridTime(fs: real, k: int): real
    requires fs > 0.0
  {
    k as real * (1.0 / fs)
  }

  /** The (fractional) grid position of time t. */
  function GridPos(fs: real, t: real): real { t * fs }

  lemma GridOrder(fs: real, k: int, t: real)
    requires fs > 0.0
    ensures GridTime(fs, k) <= t <==> k as real <= GridPos(fs, t)
    ensures t <= GridTime(fs, k) <==> GridPos(fs, t) <= k as real
    ensures GridPos(fs, GridTime(fs, k)) == k as real
  {
    var p, x := 1.0 / fs, GridTime(fs, k);
    assert p * fs == 1.0;
    assert x * fs == k as real * (p * fs) == k as real;
    ScaleOrder(x, t, fs);
    ScaleOrder(t, x, fs);
  }

  lemma ScaleOrder(a: real, b: real, d: real)
    requires d > 0.0
    ensures a <= b <==> a * d <= b * d
    ensures a < b <==> a * d < b * d
  {
    if a < b {
      ProductPositive(b - a, d);
      assert (b - a) * d == b * d - a * d;
    } else if b < a {
      ProductPositive(a - b, d);
      assert (a - b) * d == a * d - b * d;
    }
  }

  function Lerp(a: Vec3, b: Vec3, f: real): Vec3 {
    Vec3(a.x + f * (b.x - a.x), a.y + f * (b.y - a.y), a.z + f * (b.z - a.z))
  }

  /** o lies between two accepted samples and interpolates them; the factor is in [0, 1]. */
  ghost predicate Between(a: Sample, b: Sample, o: Sample) {
    a.t < b.t && a.t <= o.t <= b.t
    && 0.0 <= (o.t - a.t) / (b.t - a.t) <= 1.0
    && o.v == Lerp(a.v, b.v, (o.t - a.t) / (b.t - a.t))
  }

  lemma FactorInRange(a: Sample, b: Sample, t: real)
    requires a.t < b.t && a.t <= t <= b.t
    ensures 0.0 <= (t - a.t) / (b.t - a.t) <= 1.0
  {
    Quotient(t - a.t, b.t - a.t);
  }

  lemma Quotient(n: real, d: real)
    requires d > 0.0
    ensures n >= 0.0 ==> n / d >= 0.0
    ensures n <= d ==> n / d <= 1.0
  {
    var q := n / d;
    assert q * d == n;
    if q < 0.0 { ProductPositive(-q, d); }
    if q > 1.0 { ProductPositive(q - 1.0, d); }
  }

  ghost predicate Interpolates(seg: seq<Sample>, o: Sample) {
    exists j :: 0 <= j < |seg| - 1 && Between(seg[j], seg[j + 1], o)
  }

  /** Everything a gap-free segment owes its listener: which indices came out, and what their values are. */
  ghost predicate Faithful(fs: real, seg: seq<Sample>, emitted: seq<Sample>, k: int)
    requires fs > 0.0
  {
    seg != []
    && (forall i :: 0 < i < |seg| ==> seg[i - 1].t < seg[i].t)
    && Ceil(GridPos(fs, seg[0].t)) + |emitted| == k
    && (|seg| == 1 ==> emitted == [])
    && (|seg| >= 2 ==> k == GridPos(fs, seg[|seg| - 1].t).Floor + 1)
    && forall i :: 0 <= i < |emitted| ==>
         emitted[i].t == GridTime(fs, Ceil(GridPos(fs, seg[0].t)) + i) && Interpolates(seg, emitted[i])
  }

  /** The anti-alias design is usable whenever its cut-off lies below half the input rate. */
  ghost predicate GoodDesign(design: (real, real) -> seq<Biquad>) {
    forall fc, fsIn :: 0.0 < fc < fsIn / 2.0 ==> AllDc(CascadeClone(design(fc, fsIn)))
  }

  const MED_EVERY := 32
  const RING := 64

  datatype Stats = Stats(inputSamples: nat, outputSamples: nat, gaps: nat, nonMonotonic: nat)

  datatype Setup = Setup(fsOut: real, gapMax: real, design: (real, real) -> seq<Biquad>)

  /** Everything a resampler remembers. */
  datatype Memory = Memory(started: bool, lastT: real, last: Vec3, k: int, dts: seq<real>, nDt: nat, iDt: nat,
                           aa: Option<Bank>, aaFs: real, medDt: real, medAge: nat)

  ghost predicate Sound(c: Setup, s: Memory) {
    && c.fsOut > 0.0 && GoodDesign(c.design)
    && |s.dts| == RING && s.nDt <= RING && s.iDt < RING
    && (forall i :: 0 <= i < s.nDt ==> s.dts[i] > 0.0)
    && (s.nDt < RING ==> s.iDt == s.nDt)
    && (s.medAge > 0 ==> s.medDt > 0.0)
    && (s.aa.Some? ==> s.aaFs > 0.0 && s.nDt >= 16)
  }

  // ---------------------------------------------------------------------
  // What one sample does
  // ---------------------------------------------------------------------

  /** A new segment begins at x. */
  function Begun(c: Setup, s: Memory, x: Sample): Memory {
    s.(started := true, lastT := x.t, last := x.v, k := Ceil(GridPos(c.fsOut, x.t)), aa := None, nDt := 0, iDt := 0,
       medAge := 0)
  }

  /** The median interval; zero if there is none. */
  function MedianOf(ds: seq<real>): real {
    if ds == [] then 0.0 else S.Sort(ds, S.AtMost)[|ds| / 2]
  }

  lemma MedianPositive(ds: seq<real>)
    requires ds != [] && forall i :: 0 <= i < |ds| ==> ds[i] > 0.0
    ensures MedianOf(ds) > 0.0
  {
    var d := S.Sort(ds, S.AtMost);
    assert d[|d| / 2] in multiset(d);
    assert d[|d| / 2] in ds;
  }

  /** One more interval is remembered. */
  function Remembered(s: Memory, dt: real): Memory
    requires s.iDt < |s.dts|
  {
    s.(dts := s.dts[s.iDt := dt], iDt := (s.iDt + 1) % RING, nDt := if s.nDt < RING then s.nDt + 1 else s.nDt)
  }

  /** The measured input interval, refreshed every MED_EVERY samples. */
  function Measured(s: Memory): Memory
    requires s.nDt <= |s.dts|
  {
    if s.medAge == 0 || s.medAge >= MED_EVERY then s.(medDt := MedianOf(s.dts[..s.nDt]), medAge := 1)
    else s.(medAge := s.medAge + 1)
  }

  lemma MeasuredSound(c: Setup, s: Memory)
    requires Sound(c, s) && s.nDt >= 1
    ensures Sound(c, Measured(s)) && Measured(s).medDt > 0.0
    ensures Measured(s) == s.(medDt := Measured(s).medDt, medAge := Measured(s).medAge)
  {
    hide MedianOf, GoodDesign;
    MedianPositive(s.dts[..s.nDt]);
  }

  function RelativeChange(a: real, b: real): real
    requires b != 0.0
  {
    (if a >= b then a - b else b - a) / b
  }

  /** The anti-alias bank in use: kept, or set up anew when the input rate has changed. */
  ghost function Guarded(c: Setup, s: Memory, fsIn: real): Memory
    requires Sound(c, s) && fsIn > 1.5 * c.fsOut
  {
    if s.aa.None? || RelativeChange(fsIn, s.aaFs) > 0.1
    then s.(aaFs := fsIn, aa := Some(BankStart(c.design(0.4 * c.fsOut, fsIn), s.last)))
    else s
  }

  /** The sample after the anti-alias filter, which is in use whenever the input rate calls for one. */
  ghost function Smoothed(c: Setup, s: Memory, v: Vec3): (r: (Memory, Vec3))
    requires Sound(c, s) && s.nDt >= 1
  {
    if s.nDt < 16 then (s, v)
    else
      MeasuredSound(c, s);
      var r := Measured(s);
      if 1.0 / r.medDt > 1.5 * c.fsOut then
        var g := Guarded(c, r, 1.0 / r.medDt);
        (g.(aa := Some(BankNext(g.aa.value, v))), BankOut(g.aa.value, v))
      else (r.(aa := None), v)
  }

  /** The sample at instant tk on the line from a to b. */
  function OnLine(a: Sample, b: Sample, tk: real): Sample
    requires a.t < b.t
  {
    Sample(tk, Lerp(a.v, b.v, (tk - a.t) / (b.t - a.t)))
  }

  /** The grid instants from index k up to sample b, on the line from a to b. */
  function Instants(fs: real, a: Sample, b: Sample, k: int): (r: seq<Sample>)
    requires fs > 0.0 && a.t < b.t
    ensures |r| == if GridPos(fs, b.t).Floor + 1 - k > 0 then GridPos(fs, b.t).Floor + 1 - k else 0
    ensures forall i :: 0 <= i < |r| ==> r[i] == OnLine(a, b, GridTime(fs, k + i))
  {
    var n := GridPos(fs, b.t).Floor + 1 - k;
    seq(if n > 0 then n else 0, i requires 0 <= i => OnLine(a, b, GridTime(fs, k + i)))
  }

  /** What one input sample leaves, emits and reports. */
  datatype Step = Step(after: Memory, outs: seq<Sample>, gap: Option<(real, real)>)

  ghost function Pushed(c: Setup, s: Memory, x: Sample): Step
    requires Sound(c, s)
  {
    if !s.started then Step(Begun(c, s, x), [], None)
    else if x.t <= s.lastT then Step(s, [], None)
    else if x.t - s.lastT > c.gapMax then Step(Begun(c, s, x), [], Some((s.lastT, x.t)))
    else Grown(c, Remembered(s, x.t - s.lastT), x)
  }

  /** The sample joins the running segment. */
  ghost function Grown(c: Setup, s: Memory, x: Sample): (r: Step)
    requires Sound(c, s) && s.nDt >= 1 && s.lastT < x.t
    ensures r.gap == None
  {
    var (r, v) := Smoothed(c, s, x.v);
    var outs := Instants(c.fsOut, Sample(s.lastT, s.last), Sample(x.t, v), s.k);
    Step(r.(lastT := x.t, last := v, k := s.k + |outs|), outs, None)
  }

  /** After all the samples: the memory, and what has been emitted since the last gap. */
  datatype Heard = Heard(memory: Memory, emitted: seq<Sample>)

  function Fresh(): Memory {
    Memory(false, 0.0, Vec3(0.0, 0.0, 0.0), 0, seq(RING, i => 0.0), 0, 0, None, 0.0, 0.0, 0)
  }

  lemma PushedSound(c: Setup, s: Memory, x: Sample)
    requires Sound(c, s)
    ensures Sound(c, Pushed(c, s, x).after) && Pushed(c, s, x).after.started
  {
    hide Sound, Pushed, Begun, Grown, Remembered;
    PushedCases(c, s, x);
    BegunIs(c, s, x);
    if s.started && 0.0 < x.t - s.lastT <= c.gapMax {
      RememberedIs(c, s, x.t - s.lastT);
      GrownSound(c, Remembered(s, x.t - s.lastT), x);
    }
  }

  lemma GrownSound(c: Setup, s: Memory, x: Sample)
    requires Sound(c, s) && s.nDt >= 1 && s.lastT < x.t
    ensures Sound(c, Grown(c, s, x).after) && Grown(c, s, x).after.started == s.started
  {
    hide Instants, Smoothed, GoodDesign;
    SmoothedSound(c, s, x.v);
  }

  lemma GrownIs(c: Setup, s: Memory, x: Sample, r: Memory, v: Vec3, outs: seq<Sample>)
    requires Sound(c, s) && s.nDt >= 1 && s.lastT < x.t && Smoothed(c, s, x.v) == (r, v)
    requires outs == Instants(c.fsOut, Sample(s.lastT, s.last), Sample(x.t, v), s.k)
    ensures Grown(c, s, x) == Step(r.(lastT := x.t, last := v, k := s.k + |outs|), outs, None)
  {
    hide Smoothed, Instants, GoodDesign;
  }

  lemma SmoothedSound(c: Setup, s: Memory, v: Vec3)
    requires Sound(c, s) && s.nDt >= 1
    ensures var r := Smoothed(c, s, v).0;
            Sound(c, r) && r.started == s.started && r.lastT == s.lastT && r.last == s.last && r.k == s.k
  {
    hide GoodDesign, Measured, BankStart, BankNext, BankOut, RelativeChange;
    MeasuredSound(c, s);
  }

  lemma BegunIs(c: Setup, s: Memory, x: Sample)
    ensures Sound(c, s) ==> Sound(c, Begun(c, s, x))
    ensures Begun(c, s, x) == Memory(true, x.t, x.v, Ceil(GridPos(c.fsOut, x.t)), s.dts, 0, 0, None, s.aaFs, s.medDt, 0)
  {
    hide GridPos, GoodDesign;
  }

  lemma RememberedIs(c: Setup, s: Memory, dt: real)
    requires Sound(c, s) && dt > 0.0
    ensures Sound(c, Remembered(s, dt)) && Remembered(s, dt).nDt >= 1
    ensures var r := Remembered(s, dt);
            |s.dts| == RING && s.iDt < RING && r.started == s.started && r.lastT == s.lastT && r.last == s.last
              && r.k == s.k
  {
    hide GoodDesign;
  }

  /** The four courses an input sample can take. */
  lemma PushedCases(c: Setup, s: Memory, x: Sample)
    requires Sound(c, s)
    ensures !s.started ==> Pushed(c, s, x) == Step(Begun(c, s, x), [], None)
    ensures s.started && x.t <= s.lastT ==> Pushed(c, s, x) == Step(s, [], None)
    ensures s.started && x.t > s.lastT && x.t - s.lastT > c.gapMax ==>
              Pushed(c, s, x) == Step(Begun(c, s, x), [], Some((s.lastT, x.t)))
    ensures s.started && 0.0 < x.t - s.lastT <= c.gapMax ==>
              Sound(c, Remembered(s, x.t - s.lastT)) && Remembered(s, x.t - s.lastT).nDt >= 1
              && Remembered(s, x.t - s.lastT).lastT == s.lastT
              && Pushed(c, s, x) == Grown(c, Remembered(s, x.t - s.lastT), x)
  {
    hide Sound, Grown, Remembered, Begun;
    if s.started && 0.0 < x.t - s.lastT <= c.gapMax { RememberedIs(c, s, x.t - s.lastT); }
  }

  ghost function HeardAll(c: Setup, xs: seq<Sample>): (h: Heard)
    requires c.fsOut > 0.0 && GoodDesign(c.design)
    ensures Sound(c, h.memory)
  {
    if xs == [] then Heard(Fresh(), [])
    else
      var before := HeardAll(c, xs[..|xs| - 1]);
      var step := Pushed(c, before.memory, xs[|xs| - 1]);
      PushedSound(c, before.memory, xs[|xs| - 1]);
      Heard(step.after, if step.gap.Some? then [] else before.emitted + step.outs)
  }

  lemma HeardOneMore(c: Setup, xs: seq<Sample>, x: Sample)
    requires c.fsOut > 0.0 && GoodDesign(c.design)
    ensures var before := HeardAll(c, xs);
            var step := Pushed(c, before.memory, x);
            HeardAll(c, xs + [x]) == Heard(step.after, if step.gap.Some? then [] else before.emitted + step.outs)
  {
    hide Pushed, Sound, GoodDesign;
    assert (xs + [x])[..|xs|] == xs;
  }

  class Resampler {
    const fsOut: real
    const gapMax: real
    const design: (real, real) -> seq<Biquad>
    var started: bool
    var lastT: real
    var last: Vec3
    var k: int
    const dts: array<real>
    var nDt: nat
    var iDt: nat
    var aa: Option<Bank>
    var aaFs: real
    var stats: Stats
    var medDt: real
    var medAge: nat

    /** The accepted samples of the current segment (after any anti-aliasing) and what it has emitted. */
    ghost var seg: seq<Sample>
    ghost var emitted: seq<Sample>
    /** Every input sample. */
    ghost var heard: seq<Sample>

    ghost function Setting(): Setup { Setup(fsOut, gapMax, design) }

    ghost function Now(): Memory
      reads this, dts
    {
      Memory(started, lastT, last, k, dts[..], nDt, iDt, aa, aaFs, medDt, medAge)
    }

    /** What the running segment owes its listener has been emitted. */
    ghost predicate Running()
      requires fsOut > 0.0
      reads `started, `seg, `emitted, `k, `lastT, `last
    {
      if started then Faithful(fsOut, seg, emitted, k) && seg[|seg| - 1] == Sample(lastT, last) else emitted == []
    }

    /** Memory and emissions are what the input samples make of a fresh resampler. */
    ghost predicate Valid()
      reads this, dts
    {
      && Sound(Setting(), Now()) && Running()
      && HeardAll(Setting(), heard) == Heard(Now(), emitted)
    }

    constructor (fsOut: real, gapMax: real, design: (real, real) -> seq<Biquad>)
      requires fsOut > 0.0 && GoodDesign(design)
      ensures Valid() && !started && fresh(dts) && heard == []
      ensures this.fsOut == fsOut && this.gapMax == gapMax && this.design == design
    {
      this.fsOut, this.gapMax, this.design := fsOut, gapMax, design;
      started, lastT, last, k := false, 0.0, Vec3(0.0, 0.0, 0.0), 0;
      dts := new real[RING](_ => 0.0);
      nDt, iDt, aa, aaFs := 0, 0, None, 0.0;
      medDt, medAge := 0.0, 0;
      stats := Stats(0, 0, 0, 0);
      seg, emitted, heard := [], [], [];
      new;
      assert dts[..] == Fresh().dts;
    }

    /** Begins a segment at s. */
    method Start(s: Sample)
      requires fsOut > 0.0 && dts.Length == RING
      modifies `started, `lastT, `last, `k, `aa, `nDt, `iDt, `medAge, `seg, `emitted
      ensures Now() == Begun(Setting(), old(Now()), s) && Running() && started && seg == [s] && emitted == []
      ensures k == Ceil(GridPos(fsOut, s.t))
    {
      hide *;
      NowIs();
      BegunIs(Setting(), Now(), s);
      Reset(s);
      seg, emitted := [s], [];
      OneSample(fsOut, s);
      RunningWhole();
      NowIs();
    }

    method Reset(s: Sample)
      modifies `started, `lastT, `last, `k, `aa, `nDt, `iDt, `medAge
      ensures started && lastT == s.t && last == s.v && k == Ceil(GridPos(fsOut, s.t))
      ensures aa == None && nDt == iDt == medAge == 0
    {
      started, lastT, last := true, s.t, s.v;
      k := Ceil(GridPos(fsOut, s.t));
      aa := None;
      nDt, iDt, medAge := 0, 0, 0;
    }

    /** The median of the recent input intervals. */
    method MedianDt() returns (m: real)
      requires nDt <= dts.Length
      ensures m == MedianOf(dts[..nDt])
    {
      if nDt == 0 { return 0.0; }
      var d := S.Sort(dts[..nDt], S.AtMost);
      return d[|d| / 2];
    }

    /** The input rate reported to listeners: 0 until eight intervals are known. */
    method ReportedRate() returns (r: real)
      requires Valid()
      ensures if nDt < 8 then r == 0.0 else nDt <= RING == dts.Length && r > 0.0 && r * MedianOf(dts[..nDt]) == 1.0
    {
      hide MedianOf, Running, GoodDesign, HeardAll;
      if nDt < 8 { return 0.0; }
      var m := MedianDt();
      MedianPositive(dts[..nDt]);
      return 1.0 / m;
    }

    /** Remembers one input interval. */
    method Remember(dt: real)
      requires dts.Length == RING && iDt < RING
      modifies `iDt, `nDt, dts
      ensures Now() == Remembered(old(Now()), dt)
    {
      dts[iDt] := dt;
      iDt := (iDt + 1) % RING;
      if nDt < RING {
        nDt := nDt + 1;
      }
    }

    /** The measured input rate, refreshed every MED_EVERY samples. */
    method InputRate() returns (fsIn: real)
      requires Sound(Setting(), Now()) && nDt >= 1
      modifies `medDt, `medAge
      ensures Now() == Measured(old(Now())) && medDt > 0.0 && fsIn == 1.0 / medDt
    {
      hide MedianOf, GoodDesign;
      MeasuredSound(Setting(), Now());
      if medAge == 0 || medAge >= MED_EVERY {
        var m := MedianDt();
        medDt, medAge := m, 0;
      }
      medAge := medAge + 1;
      fsIn := 1.0 / medDt;
    }

    /** Passes the sample through the anti-alias filter when the input rate calls for one. */
    method AntiAlias(v: Vec3) returns (cur: Vec3)
      requires Sound(Setting(), Now()) && Now().nDt >= 1
      modifies `medDt, `medAge, `aa, `aaFs
      ensures (Now(), cur) == Smoothed(Setting(), old(Now()), v)
    {
      hide BankStart, BankOut, BankNext, AllDc, MedianOf, RelativeChange;
      cur := v;
      if nDt >= 16 {
        MeasuredSound(Setting(), Now());
        var fsIn := InputRate();
        if fsIn > 1.5 * fsOut {
          if aa.None? || RelativeChange(fsIn, aaFs) > 0.1 {
            aaFs := fsIn;
            aa := Some(BankStart(design(0.4 * fsOut, fsIn), last));
          }
          cur := BankOut(aa.value, cur);
          aa := Some(BankNext(aa.value, v));
        } else if aa.Some? {
          aa := None;
        }
      }
    }

    /** Emits every grid instant up to the new sample. */
    method Emit(cur: Sample) returns (outs: seq<Sample>)
      requires fsOut > 0.0 && Running() && started && lastT < cur.t
      modifies `k, `stats, `seg, `emitted, `lastT, `last
      ensures Running() && outs == Instants(fsOut, Sample(old(lastT), old(last)), cur, old(k))
      ensures outs == Instants(fsOut, Sample(old(Now()).lastT, old(Now()).last), cur, old(Now()).k)
      ensures Now() == old(Now()).(lastT := cur.t, last := cur.v, k := old(Now()).k + |outs|)
      ensures lastT == cur.t && last == cur.v && k == old(k) + |outs|
      ensures seg == old(seg) + [cur] && emitted == old(emitted) + outs
      ensures stats == old(stats).(outputSamples := old(stats).outputSamples + |outs|)
    {
      hide Running, Faithful, Lerp, GridTime, GridPos, Instants;
      outs := [];
      ghost var k0, st0, seg0, em0 := k, stats, seg, emitted;
      var a := Sample(lastT, last);
      RunningParts();
      LastBefore(fsOut, seg, emitted, k, cur);
      InstantsGrow(fsOut, seg, emitted, k, cur);
      while GridTime(fsOut, k) <= cur.t
        invariant k == k0 + |outs| && stats == st0.(outputSamples := st0.outputSamples + |outs|)
        invariant lastT == a.t && last == a.v && seg == seg0 && emitted == em0
        invariant k - 1 <= GridPos(fsOut, cur.t).Floor
        invariant forall i :: 0 <= i < |outs| ==> outs[i] == OnLine(a, cur, GridTime(fsOut, k0 + i))
        decreases GridPos(fsOut, cur.t).Floor - k
      {
        var tk := GridTime(fsOut, k);
        GridOrder(fsOut, k, cur.t);
        var f := (tk - lastT) / (cur.t - lastT);
        var o := Sample(tk, Lerp(last, cur.v, f));
        stats := stats.(outputSamples := stats.outputSamples + 1);
        outs := outs + [o];
        k := k + 1;
      }
      GridOrder(fsOut, k, cur.t);
      AllInstants(fsOut, a, cur, k0, outs);
      seg, emitted := seg + [cur], emitted + outs;
      lastT, last := cur.t, cur.v;
      RunningWhole();
    }

    lemma RunningParts()
      requires fsOut > 0.0 && Running() && started
      ensures seg != [] && Faithful(fsOut, seg, emitted, k) && seg[|seg| - 1] == Sample(lastT, last)
    {
    }

    lemma NotRunning()
      requires fsOut > 0.0 && Running() && !started
      ensures emitted == []
    {
    }

    lemma RunningWhole()
      requires fsOut > 0.0 && started && seg != [] && Faithful(fsOut, seg, emitted, k)
      requires seg[|seg| - 1] == Sample(lastT, last)
      ensures Running()
    {
    }

    lemma Parts()
      requires Valid()
      ensures fsOut > 0.0 && GoodDesign(design) && Sound(Setting(), Now()) && Running()
      ensures HeardAll(Setting(), heard) == Heard(Now(), emitted)
      ensures dts.Length == RING && iDt < RING && nDt <= RING && Setting() == Setup(fsOut, gapMax, design)
      ensures Now() == Memory(started, lastT, last, k, dts[..], nDt, iDt, aa, aaFs, medDt, medAge)
    {
    }

    lemma Whole()
      requires Sound(Setting(), Now()) && fsOut > 0.0 && GoodDesign(design) && Running()
      requires HeardAll(Setting(), heard) == Heard(Now(), emitted)
      ensures Valid()
    {
    }

    lemma NowIs()
      ensures Setting() == Setup(fsOut, gapMax, design)
      ensures Now() == Memory(started, lastT, last, k, dts[..], nDt, iDt, aa, aaFs, medDt, medAge)
    {
    }

    /** The sample joins the running segment. */
    method Continue(s: Sample) returns (outs: seq<Sample>)
      requires Sound(Setting(), Now()) && fsOut > 0.0 && Running() && started && 0.0 < s.t - lastT <= gapMax
      modifies this, dts
      ensures Step(Now(), outs, None) == Pushed(Setting(), old(Now()), s) && Running() && heard == old(heard)
      ensures started && lastT == s.t && seg == old(seg) + [Sample(s.t, last)] && emitted == old(emitted) + outs
      ensures k == old(k) + |outs| && forall i :: 0 <= i < |outs| ==> outs[i].t == GridTime(fsOut, old(k) + i)
      ensures stats == old(stats).(outputSamples := old(stats).outputSamples + |outs|)
    {
      hide *;
      SoundParts();
      NowIs();
      ghost var a, k0 := Sample(lastT, last), k;
      PushedCases(Setting(), Now(), s);
      Remember(s.t - lastT);
      ghost var m := Now();
      SmoothedSound(Setting(), m, s.v);
      var cur := AntiAlias(s.v);
      ghost var r := Now();
      RememberedIs(Setting(), old(Now()), s.t - old(lastT));
      outs := Emit(Sample(s.t, cur));
      InstantTimes(fsOut, a, Sample(s.t, cur), k0);
      GrownIs(Setting(), m, s, r, cur, outs);
    }

    lemma SoundParts()
      requires Sound(Setting(), Now())
      ensures dts.Length == RING && iDt < RING && nDt <= RING && Setting() == Setup(fsOut, gapMax, design)
    {
      hide GoodDesign;
    }

    /** Feeds one input sample: what it emits, and the gap it closes if any. */
    method Push(s: Sample) returns (outs: seq<Sample>, gap: Option<(real, real)>)
      requires Valid()
      modifies this, dts
      ensures Valid() && heard == old(heard) + [s]
      // everything it does, anti-aliased values included
      ensures Step(Now(), outs, gap) == Pushed(Setting(), old(Now()), s)
      ensures started
      // the first sample of a stream, or of the segment after a gap, emits nothing
      ensures !old(started) ==> outs == [] && gap == None && seg == [s] && emitted == []
      ensures gap.Some? <==> old(started) && s.t - old(lastT) > gapMax && s.t - old(lastT) > 0.0
      ensures gap.Some? ==> gap.value == (old(lastT), s.t) && outs == [] && seg == [s] && emitted == []
      ensures !old(started) || gap.Some? ==> k == Ceil(GridPos(fsOut, s.t))
      // a sample that does not move forward in time is dropped
      ensures old(started) && s.t <= old(lastT) ==>
                outs == [] && seg == old(seg) && emitted == old(emitted) && k == old(k) && lastT == old(lastT)
      // otherwise the segment grows by one accepted sample and the indices it reaches
      ensures old(started) && 0.0 < s.t - old(lastT) <= gapMax ==>
                lastT == s.t && seg == old(seg) + [Sample(s.t, last)] && emitted == old(emitted) + outs
                && k == old(k) + |outs|
      ensures forall i :: 0 <= i < |outs| ==> outs[i].t == GridTime(fsOut, old(k) + i)
      ensures stats.inputSamples == old(stats).inputSamples + 1
              && stats.outputSamples == old(stats).outputSamples + |outs|
              && stats.gaps == old(stats).gaps + (if gap.Some? then 1 else 0)
              && stats.nonMonotonic == old(stats).nonMonotonic + (if old(started) && s.t <= old(lastT) then 1 else 0)
    {
      hide *;
      Parts();
      HeardOneMore(Setting(), heard, s);
      PushedSound(Setting(), Now(), s);
      PushedCases(Setting(), Now(), s);
      heard := heard + [s];
      outs, gap := [], None;
      stats := stats.(inputSamples := stats.inputSamples + 1);
      NowIs();
      if !started {
        NotRunning();
        Start(s);
        NowIs();
        Whole();
        return;
      }
      var dt := s.t - lastT;
      if dt <= 0.0 {
        stats := stats.(nonMonotonic := stats.nonMonotonic + 1);
        NowIs();
        Whole();
        return;
      }
      if dt > gapMax {
        stats := stats.(gaps := stats.gaps + 1);
        gap := Some((lastT, s.t));
        NowIs();
        Start(s);
        NowIs();
        Whole();
        return;
      }
      outs := Continue(s);
      NowIs();
      Whole();
    }
  }

  lemma OneSample(fs: real, s: Sample)
    requires fs > 0.0
    ensures Faithful(fs, [s], [], Ceil(GridPos(fs, s.t)))
  {
    hide GridPos, GridTime;
  }

  /** The next index is at most one past the last instant before a later sample. */
  lemma LastBefore(fs: real, seg: seq<Sample>, emitted: seq<Sample>, k: int, cur: Sample)
    requires fs > 0.0 && Faithful(fs, seg, emitted, k) && seg[|seg| - 1].t < cur.t
    ensures k - 1 <= GridPos(fs, cur.t).Floor
  {
    SegmentBounds(fs, seg, emitted, k);
    ScaleOrder(seg[|seg| - 1].t, cur.t, fs);
    hide Faithful;
  }

  lemma InstantTimes(fs: real, a: Sample, b: Sample, k: int)
    requires fs > 0.0 && a.t < b.t
    ensures var outs := Instants(fs, a, b, k); forall i :: 0 <= i < |outs| ==> outs[i].t == GridTime(fs, k + i)
  {
    hide GridPos, GridTime;
  }

  lemma AllInstants(fs: real, a: Sample, cur: Sample, k: int, outs: seq<Sample>)
    requires fs > 0.0 && a.t < cur.t && k - 1 <= GridPos(fs, cur.t).Floor
    requires k + |outs| == GridPos(fs, cur.t).Floor + 1
    requires forall i :: 0 <= i < |outs| ==> outs[i] == OnLine(a, cur, GridTime(fs, k + i))
    ensures outs == Instants(fs, a, cur, k)
  {
    hide GridPos, GridTime, OnLine;
  }

  /** The instants up to the next sample continue a faithful segment. */
  lemma InstantsGrow(fs: real, seg: seq<Sample>, emitted: seq<Sample>, k: int, cur: Sample)
    requires fs > 0.0 && Faithful(fs, seg, emitted, k) && seg[|seg| - 1].t < cur.t
    ensures var outs := Instants(fs, seg[|seg| - 1], cur, k);
            Faithful(fs, seg + [cur], emitted + outs, k + |outs|)
  {
    hide GridPos, GridTime, Faithful, Lerp;
    SegmentBounds(fs, seg, emitted, k);
    var a := seg[|seg| - 1];
    var outs := Instants(fs, a, cur, k);
    LastBefore(fs, seg, emitted, k, cur);
    forall i | 0 <= i < |outs| ensures outs[i].t == GridTime(fs, k + i) && Between(a, cur, outs[i]) {
      var tk := GridTime(fs, k + i);
      GridOrder(fs, k + i, cur.t);
      GridOrder(fs, k + i, a.t);
      FactorInRange(a, cur, tk);
    }
    hide Between;
    SegmentGrows(fs, seg, emitted, k, cur, outs);
  }

  /** Between two pushes the next index is the first one at or after the last accepted sample. */
  lemma SegmentBounds(fs: real, seg: seq<Sample>, emitted: seq<Sample>, k: int)
    requires fs > 0.0 && Faithful(fs, seg, emitted, k)
    ensures seg != [] && (k - 1) as real <= GridPos(fs, seg[|seg| - 1].t) <= k as real
  {
  }

  lemma SegmentGrows(fs: real, seg: seq<Sample>, emitted: seq<Sample>, k: int, cur: Sample, outs: seq<Sample>)
    requires fs > 0.0 && Faithful(fs, seg, emitted, k) && seg[|seg| - 1].t < cur.t
    requires var n := k + |outs|; (n - 1) as real <= GridPos(fs, cur.t) < n as real
    requires forall i :: 0 <= i < |outs| ==> outs[i].t == GridTime(fs, k + i) && Between(seg[|seg| - 1], cur, outs[i])
    ensures Faithful(fs, seg + [cur], emitted + outs, k + |outs|)
  {
    hide Between, GridTime, GridPos;
    var t, e := seg + [cur], emitted + outs;
    var k0 := Ceil(GridPos(fs, seg[0].t));
    assert t[0] == seg[0];
    forall i | 0 <= i < |e| ensures e[i].t == GridTime(fs, k0 + i) && Interpolates(t, e[i]) {
      if i < |emitted| {
        var j :| 0 <= j < |seg| - 1 && Between(seg[j], seg[j + 1], emitted[i]);
        assert Between(t[j], t[j + 1], e[i]);
      } else {
        assert e[i] == outs[i - |emitted|];
        assert Between(t[|seg| - 1], t[|seg| - 1 + 1], e[i]);
      }
    }
  }

  /**
   A segment of two or more accepted samples emits a grid instant exactly when the instant lies between
   its first and last accepted sample, and never twice.
   */
  lemma EveryInstantOnce(fs: real, seg: seq<Sample>, emitted: seq<Sample>, k: int, g: int)
    requires fs > 0.0 && Faithful(fs, seg, emitted, k) && |seg| >= 2
    ensures seg[0].t <= GridTime(fs, g) <= seg[|seg| - 1].t
            <==> exists i :: 0 <= i < |emitted| && emitted[i].t == GridTime(fs, g)
    ensures forall i, j :: 0 <= i < j < |emitted| ==> emitted[i].t < emitted[j].t
  {
    var k0 := Ceil(GridPos(fs, seg[0].t));
    GridOrder(fs, g, seg[0].t);
    GridOrder(fs, g, seg[|seg| - 1].t);
    forall i, j | 0 <= i < j < |emitted| ensures emitted[i].t < emitted[j].t { GridIncreasing(fs, k0 + i, k0 + j); }
    if seg[0].t <= GridTime(fs, g) <= seg[|seg| - 1].t {
      assert k0 <= g < k;
      assert emitted[g - k0].t == GridTime(fs, g);
    }
    if i :| 0 <= i < |emitted| && emitted[i].t == GridTime(fs, g) {
      if k0 + i < g { GridIncreasing(fs, k0 + i, g); }
      if g < k0 + i { GridIncreasing(fs, g, k0 + i); }
    }
    hide GridTime, GridPos;
  }

  lemma GridIncreasing(fs: real, a: int, b: int)
    requires fs > 0.0 && a < b
    ensures GridTime(fs, a) < GridTime(fs, b)
  {
    ScaleOrder(a as real, b as real, 1.0 / fs);
  }

  // ---------------------------------------------------------------------
  // Turned phones
  // ---------------------------------------------------------------------

  function TurnSample(m: Rotation, x: Sample): Sample { Sample(x.t, Turn(m, x.v)) }

  function TurnSamples(m: Rotation, xs: seq<Sample>): (r: seq<Sample>)
    ensures |r| == |xs|
  {
    seq(|xs|, i requires 0 <= i < |xs| => TurnSample(m, xs[i]))
  }

  /** The three axes' anti-alias cascades, if there are any, come from one design. */
  ghost predicate LinedUp(s: Memory) { s.aa.Some? ==> AlignedBank(s.aa.value) }

  ghost function TurnMemory(m: Rotation, s: Memory): Memory
    requires LinedUp(s)
  {
    s.(last := Turn(m, s.last), aa := if s.aa.Some? then Some(TurnBank(m, s.aa.value)) else None)
  }

  lemma TurnMemoryIs(c: Setup, m: Rotation, s: Memory)
    requires LinedUp(s)
    ensures TurnMemory(m, s)
            == s.(last := Turn(m, s.last), aa := if s.aa.Some? then Some(TurnBank(m, s.aa.value)) else None)
    ensures Sound(c, s) ==> Sound(c, TurnMemory(m, s))
  {
    hide Turn, TurnBank, GoodDesign;
  }

  /** A point of a turned line is the turned point. */
  lemma TurnedLerp(m: Rotation, a: Vec3, b: Vec3, f: real)
    ensures Lerp(Turn(m, a), Turn(m, b), f) == Turn(m, Lerp(a, b, f))
  {
    DotLerp(m.r0, a, b, f);
    DotLerp(m.r1, a, b, f);
    DotLerp(m.r2, a, b, f);
    hide Dot;
  }

  lemma DotLerp(w: Vec3, a: Vec3, b: Vec3, f: real)
    ensures Dot(w, a) + f * (Dot(w, b) - Dot(w, a)) == Dot(w, Lerp(a, b, f))
  {
    var d := Vec3(b.x - a.x, b.y - a.y, b.z - a.z);
    AddDot(w, b, a);
    ScaleDot(f, w, d);
    AddDot(w, a, Vec3(f * d.x, f * d.y, f * d.z));
    Multiple(f, Dot(w, b) - Dot(w, a), Dot(w, d));
    hide Dot;
  }

  lemma Multiple(f: real, x: real, y: real)
    requires x == y
    ensures f * x == f * y
  {
  }

  lemma TurnedInstants(m: Rotation, fs: real, a: Sample, b: Sample, k: int)
    requires fs > 0.0 && a.t < b.t
    ensures Instants(fs, TurnSample(m, a), TurnSample(m, b), k) == TurnSamples(m, Instants(fs, a, b, k))
  {
    hide GridTime, GridPos, Lerp, Turn;
    var p, q := Instants(fs, TurnSample(m, a), TurnSample(m, b), k), Instants(fs, a, b, k);
    forall i | 0 <= i < |p| ensures p[i] == TurnSample(m, q[i]) {
      TurnedLerp(m, a.v, b.v, (GridTime(fs, k + i) - a.t) / (b.t - a.t));
    }
  }

  /** A bank set up for a turned phone is the turned bank. */
  lemma TurnedGuard(m: Rotation, c: Setup, s: Memory, fsIn: real)
    requires Sound(c, s) && LinedUp(s) && fsIn > 1.5 * c.fsOut
    ensures LinedUp(Guarded(c, s, fsIn)) && Sound(c, TurnMemory(m, s))
    ensures Guarded(c, TurnMemory(m, s), fsIn) == TurnMemory(m, Guarded(c, s, fsIn))
  {
    hide Turn, TurnBank, BankStart, AlignedBank, RelativeChange;
    TurnMemoryIs(c, m, s);
    if s.aa.None? || RelativeChange(fsIn, s.aaFs) > 0.1 {
      TurnedBankStart(m, c.design(0.4 * c.fsOut, fsIn), s.last);
    }
  }

  lemma TurnedMeasure(m: Rotation, c: Setup, s: Memory)
    requires Sound(c, s) && LinedUp(s) && s.nDt >= 1
    ensures LinedUp(Measured(s)) && Sound(c, TurnMemory(m, s)) && Sound(c, Measured(s)) && Measured(s).medDt > 0.0
    ensures Measured(TurnMemory(m, s)) == TurnMemory(m, Measured(s))
  {
    hide Turn, TurnBank, AlignedBank, GoodDesign, MedianOf;
    TurnMemoryIs(c, m, s);
    MeasuredSound(c, s);
  }

  lemma TurnedSmooth(m: Rotation, c: Setup, s: Memory, v: Vec3)
    requires Sound(c, s) && LinedUp(s) && s.nDt >= 1
    ensures Sound(c, TurnMemory(m, s)) && LinedUp(Smoothed(c, s, v).0)
    ensures Smoothed(c, TurnMemory(m, s), Turn(m, v))
            == (TurnMemory(m, Smoothed(c, s, v).0), Turn(m, Smoothed(c, s, v).1))
  {
    hide Turn, TurnBank, BankOut, BankNext, AlignedBank, GoodDesign, Measured, Guarded;
    TurnMemoryIs(c, m, s);
    if s.nDt >= 16 {
      TurnedMeasure(m, c, s);
      var r := Measured(s);
      TurnMemoryIs(c, m, r);
      var fsIn := 1.0 / r.medDt;
      if fsIn > 1.5 * c.fsOut {
        TurnedGuard(m, c, r, fsIn);
        var g := Guarded(c, r, fsIn);
        assert g.aa.Some? by { GuardedHas(c, r, fsIn); }
        TurnMemoryIs(c, m, g);
        TurnedBankStep(m, g.aa.value, v);
      }
    }
  }

  lemma GuardedHas(c: Setup, s: Memory, fsIn: real)
    requires Sound(c, s) && fsIn > 1.5 * c.fsOut
    ensures Guarded(c, s, fsIn).aa.Some?
  {
    hide GoodDesign, BankStart, RelativeChange;
  }

  lemma TurnedGrown(m: Rotation, c: Setup, s: Memory, x: Sample)
    requires Sound(c, s) && LinedUp(s) && s.nDt >= 1 && s.lastT < x.t
    ensures Sound(c, TurnMemory(m, s)) && LinedUp(Grown(c, s, x).after)
    ensures Grown(c, TurnMemory(m, s), TurnSample(m, x))
            == Step(TurnMemory(m, Grown(c, s, x).after), TurnSamples(m, Grown(c, s, x).outs), None)
  {
    hide Turn, TurnBank, AlignedBank, GoodDesign, Smoothed, Instants;
    TurnMemoryIs(c, m, s);
    TurnedSmooth(m, c, s, x.v);
    SmoothedSound(c, s, x.v);
    var (r, v) := Smoothed(c, s, x.v);
    TurnedInstants(m, c.fsOut, Sample(s.lastT, s.last), Sample(x.t, v), s.k);
    GrownIs(c, s, x, r, v, Instants(c.fsOut, Sample(s.lastT, s.last), Sample(x.t, v), s.k));
  }

  lemma TurnedBegin(m: Rotation, c: Setup, s: Memory, x: Sample)
    requires LinedUp(s)
    ensures LinedUp(Begun(c, s, x))
    ensures Begun(c, TurnMemory(m, s), TurnSample(m, x)) == TurnMemory(m, Begun(c, s, x))
  {
    hide Turn, TurnBank, AlignedBank, GridPos;
  }

  lemma TurnedMemory(m: Rotation, c: Setup, s: Memory, dt: real)
    requires Sound(c, s) && LinedUp(s)
    ensures Sound(c, TurnMemory(m, s)) && |s.dts| == RING && s.iDt < RING && LinedUp(Remembered(s, dt))
    ensures Remembered(TurnMemory(m, s), dt) == TurnMemory(m, Remembered(s, dt))
  {
    hide Turn, TurnBank, AlignedBank, GoodDesign;
    TurnMemoryIs(c, m, s);
  }

  /** One sample: the turned phone emits the turned samples, reports the same gap, and stays turned. */
  lemma TurnedPush(m: Rotation, c: Setup, s: Memory, x: Sample)
    requires Sound(c, s) && LinedUp(s)
    ensures Sound(c, TurnMemory(m, s)) && LinedUp(Pushed(c, s, x).after)
    ensures var step := Pushed(c, s, x);
            Pushed(c, TurnMemory(m, s), TurnSample(m, x))
            == Step(TurnMemory(m, step.after), TurnSamples(m, step.outs), step.gap)
  {
    hide Turn, TurnBank, AlignedBank, GoodDesign, Grown, Pushed, Sound, Begun, Remembered, LinedUp;
    TurnMemoryIs(c, m, s);
    PushedCases(c, s, x);
    PushedCases(c, TurnMemory(m, s), TurnSample(m, x));
    TurnedBegin(m, c, s, x);
    TurnedMemory(m, c, s, x.t - s.lastT);
    assert TurnSamples(m, []) == [];
    if s.started && 0.0 < x.t - s.lastT <= c.gapMax { TurnedGrown(m, c, Remembered(s, x.t - s.lastT), x); }
  }

  lemma TurnedAppend(m: Rotation, a: seq<Sample>, b: seq<Sample>)
    ensures TurnSamples(m, a + b) == TurnSamples(m, a) + TurnSamples(m, b)
  {
    hide TurnSample;
  }

  lemma FreshTurned(m: Rotation)
    ensures LinedUp(Fresh()) && TurnMemory(m, Fresh()) == Fresh()
  {
    assert Turn(m, Vec3(0.0, 0.0, 0.0)) == Vec3(0.0, 0.0, 0.0);
  }

  /** A whole stream: whatever one phone has emitted since the last gap, the turned phone has emitted turned. */
  lemma {:induction false} TurnedStream(m: Rotation, c: Setup, xs: seq<Sample>)
    requires c.fsOut > 0.0 && GoodDesign(c.design)
    ensures LinedUp(HeardAll(c, xs).memory)
    ensures HeardAll(c, TurnSamples(m, xs))
            == Heard(TurnMemory(m, HeardAll(c, xs).memory), TurnSamples(m, HeardAll(c, xs).emitted))
  {
    hide Pushed, TurnMemory, TurnSample, LinedUp, Sound, GoodDesign, Fresh;
    if xs == [] {
      FreshTurned(m);
      assert TurnSamples(m, []) == [];
    } else {
      var rest, x := xs[..|xs| - 1], xs[|xs| - 1];
      TurnedStream(m, c, rest);
      assert xs == rest + [x] && TurnSamples(m, xs) == TurnSamples(m, rest) + [TurnSample(m, x)];
      HeardOneMore(c, rest, x);
      HeardOneMore(c, TurnSamples(m, rest), TurnSample(m, x));
      var before := HeardAll(c, rest);
      TurnedPush(m, c, before.memory, x);
      TurnedAppend(m, before.emitted, Pushed(c, before.memory, x).outs);
      assert TurnSamples(m, []) == [];
    }
  }
}
