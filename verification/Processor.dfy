/**
 The per-phone trigger machine over ring buffers. Whatever the signal, every emitted pick gets exactly
 one end before the next pick, in bounded time, and what a pick is judged on is a slice of the
 segment's history, never a stale ring slot.
 */
module Station {
  import opened Basics
  import opened Features
  import F = Filter
  import R = Resample
  import D = Detect
  import Rings

  datatype State = Warmup | Quiet | Triggered | Disturbed

  datatype Pick = Pick(seqNo: nat, onset: nat, trig: nat, eval: nat, cls: Class, accepted: bool, evidence: Evidence)

  datatype PickEnd = PickEnd(seqNo: nat, endT: real, duration: real, pga: real, tilt: real, cls: Class, accepted: bool,
                             truncated: bool)

  datatype Output = PickOut(pick: Pick) | EndOut(end: PickEnd) | StatusOut(state: State, t: real)

  datatype Trigger = Trigger(pick: Option<Pick>, trigK: nat, evalK: nat, gPre: Vec3, peak: real, staltaMax: real,
                             detrigK: int, endK: int)

  datatype Second = Second(g: Vec3, rms: real, triggered: bool)

  /**
   The tuning. Durations that the source turns into a whole number of samples are given as that number.
   The logarithm and the filter designs are given, and so are the gates' square root, angle and spectral flatness.
   */
  datatype Config = Config(
    fs: real, gapMax: real, minInputRate: real, antiAlias: (real, real) -> seq<F.Biquad>,
    band: seq<F.Biquad>, gravity: seq<F.Biquad>,
    nSta: real, nLta: real, triggerRatio: real, detriggerRatio: real,
    evalDelay: nat, maxTriggerSec: real, aicPre: nat, preWindow: nat, halfSecond: nat, fifthSecond: nat,
    endSettle: nat, bufferLen: nat, second: nat, seedSpan: nat,
    stillWindow: nat, stillMaxTilt: real, stillMaxRms: real, settleSec: real,
    resumeSettleSec: real, resumeMaxSec: real, resumeMaxTilt: real, noiseCap: nat,
    freefallBelow: real, freefallMin: nat, statusInterval: real, log: real -> real, gates: Gates)

  /** Samples from the trigger to the first evaluation: never the trigger's own sample. */
  function EvalAfter(c: Config): nat { MaxInt(c.evalDelay, 1) }

  /** The buffer holds everything an evaluation or a seeding looks back on. */
  predicate BufferFits(c: Config) {
    && c.fs > 0.0
    && c.aicPre + MaxInt(c.preWindow, c.halfSecond) + EvalAfter(c) < c.bufferLen
    && c.halfSecond <= EvalAfter(c) + 1
    && 0 < c.seedSpan <= c.bufferLen
  }

  /** The filter designs have a gain at zero frequency. */
  ghost predicate Designs(c: Config) {
    R.GoodDesign(c.antiAlias) && F.AllDc(F.CascadeClone(c.band)) && F.AllDc(F.CascadeClone(c.gravity))
  }

  ghost predicate ValidConfig(c: Config) {
    && BufferFits(c) && Designs(c)
    && c.second > 0 && c.triggerRatio > 0.0 && c.nSta != 0.0 && c.nLta > 0.0
    && c.settleSec >= 0.0 && c.resumeSettleSec >= 0.0
  }

  function TimeOf(c: Config, k: int): real
    requires c.fs > 0.0
  {
    R.GridTime(c.fs, k)
  }

  // ---------------------------------------------------------------------
  // What is promised to the listener
  // ---------------------------------------------------------------------

  /** The longest wait, in samples, from a trigger to its detrigger. */
  function Longest(c: Config): nat
    requires c.fs > 0.0
  {
    MaxInt(EvalAfter(c), Ceil(R.GridPos(c.fs, c.maxTriggerSec)))
  }

  datatype Pending = Broken | Closed | Open(pick: Pick)

  /** The tilt shows that an accepted pick was the phone being moved. */
  predicate Downgraded(c: Config, p: Pick, tilt: real) { p.accepted && tilt > c.gates.maxEventTilt }

  /**
   The end belongs to the pick. Unless the stream broke it is in time, and it takes the pick back exactly if the tilt
   it reports is too large.
   */
  predicate Ends(c: Config, p: Pick, e: PickEnd)
    requires c.fs > 0.0
  {
    && e.seqNo == p.seqNo
    && if e.truncated then e.cls == p.cls && e.accepted == p.accepted
       else
         && e.endT <= TimeOf(c, p.trig + Longest(c) + c.endSettle)
         && e.cls == (if Downgraded(c, p, e.tilt) then Handling else p.cls)
         && e.accepted == (p.accepted && !Downgraded(c, p, e.tilt))
  }

  /** The end of a pick when the stream breaks. */
  function GapEnd(c: Config, t: Trigger, p: Pick, from: real): PickEnd
    requires c.fs > 0.0
  {
    PickEnd(p.seqNo, from, from - TimeOf(c, p.onset), t.peak, 0.0, p.cls, p.accepted, true)
  }

  /** The end of a pick when the motion has settled with this tilt. */
  function FinalEnd(c: Config, t: Trigger, p: Pick, kk: nat, tilt: real): PickEnd
    requires c.fs > 0.0
  {
    PickEnd(p.seqNo, TimeOf(c, kk), TimeOf(c, t.detrigK) - TimeOf(c, p.onset), t.peak, tilt,
            if Downgraded(c, p, tilt) then Handling else p.cls, p.accepted && !Downgraded(c, p, tilt), false)
  }

  /** What is told when the state becomes s. */
  function Told(was: State, s: State, t: real): seq<Output> { if was == s then [] else [StatusOut(s, t)] }

  function PickCount(log: seq<Output>): nat {
    if log == [] then 0 else PickCount(log[..|log| - 1]) + if log[|log| - 1].PickOut? then 1 else 0
  }

  /** Picks and ends alternate, each end matching its pick; picks are numbered 1, 2, .. */
  function PendingAfter(c: Config, log: seq<Output>): Pending
    requires c.fs > 0.0
  {
    if log == [] then Closed
    else
      var rest, o := log[..|log| - 1], log[|log| - 1];
      var p := PendingAfter(c, rest);
      match o
      case PickOut(k) => if p == Closed && k.seqNo == PickCount(rest) + 1 then Open(k) else Broken
      case EndOut(e) => if p.Open? && Ends(c, p.pick, e) then Closed else Broken
      case StatusOut(_, _) => p
  }

  lemma Appended(c: Config, log: seq<Output>, o: Output)
    requires c.fs > 0.0
    ensures PickCount(log + [o]) == PickCount(log) + if o.PickOut? then 1 else 0
    ensures o.StatusOut? ==> PendingAfter(c, log + [o]) == PendingAfter(c, log)
    ensures o.PickOut? && PendingAfter(c, log) == Closed && o.pick.seqNo == PickCount(log) + 1 ==>
              PendingAfter(c, log + [o]) == Open(o.pick)
    ensures o.EndOut? && PendingAfter(c, log).Open? && Ends(c, PendingAfter(c, log).pick, o.end) ==>
              PendingAfter(c, log + [o]) == Closed
  {
    assert (log + [o])[..|log|] == log;
  }

  /** The pick at i is still open: only statuses have followed it. */
  predicate Waits(log: seq<Output>, i: int) {
    0 <= i < |log| && log[i].PickOut? && forall k :: i < k < |log| ==> log[k].StatusOut?
  }

  /** The end at j is that of the pick at i, and only statuses lie between them. */
  predicate Answers(c: Config, log: seq<Output>, i: int, j: int)
    requires c.fs > 0.0
  {
    && 0 <= i < j < |log| && log[i].PickOut? && log[j].EndOut? && Ends(c, log[i].pick, log[j].end)
    && forall k :: i < k < j ==> log[k].StatusOut?
  }

  ghost predicate Answered(c: Config, log: seq<Output>, i: int)
    requires c.fs > 0.0
  {
    exists j :: Answers(c, log, i, j)
  }

  ghost predicate Answering(c: Config, log: seq<Output>, j: int)
    requires c.fs > 0.0
  {
    exists i :: Answers(c, log, i, j)
  }

  /** Every pick is numbered and followed by its own end before the next pick; only the last may still wait for it. */
  ghost predicate Promised(c: Config, log: seq<Output>)
    requires c.fs > 0.0
  {
    && (forall i :: 0 <= i < |log| && log[i].PickOut? ==>
          log[i].pick.seqNo == PickCount(log[..i]) + 1 && (Answered(c, log, i) || Waits(log, i)))
    && (forall j :: 0 <= j < |log| && log[j].EndOut? ==> Answering(c, log, j))
  }

  lemma WaitsMore(rest: seq<Output>, o: Output, i: int)
    requires 0 <= i < |rest|
    ensures Waits(rest + [o], i) <==> Waits(rest, i) && o.StatusOut?
  {
    var log := rest + [o];
    assert forall k :: 0 <= k < |rest| ==> log[k] == rest[k];
    if Waits(log, i) { assert log[|rest|] == o; }
  }

  lemma AnswersMore(c: Config, rest: seq<Output>, o: Output, i: int, j: int)
    requires c.fs > 0.0
    ensures 0 <= j < |rest| ==> (Answers(c, rest + [o], i, j) <==> Answers(c, rest, i, j))
    ensures j == |rest| ==>
              (Answers(c, rest + [o], i, j) <==> Waits(rest, i) && o.EndOut? && Ends(c, rest[i].pick, o.end))
  {
    hide Ends;
    var log := rest + [o];
    assert forall k :: 0 <= k < |rest| ==> log[k] == rest[k];
  }

  /** What one more output asks for. */
  ghost predicate Fitting(c: Config, rest: seq<Output>, o: Output)
    requires c.fs > 0.0
  {
    match o
    case PickOut(p) => p.seqNo == PickCount(rest) + 1 && forall i :: !Waits(rest, i)
    case EndOut(e) => exists i :: Waits(rest, i) && Ends(c, rest[i].pick, e)
    case StatusOut(_, _) => true
  }

  lemma PromisedBefore(c: Config, rest: seq<Output>, o: Output)
    requires c.fs > 0.0 && Promised(c, rest + [o])
    ensures Promised(c, rest) && Fitting(c, rest, o)
  {
    hide Ends, Answers, Waits;
    var log := rest + [o];
    assert forall k :: 0 <= k < |rest| ==> log[k] == rest[k];
    forall i | 0 <= i < |rest| && rest[i].PickOut?
      ensures rest[i].pick.seqNo == PickCount(rest[..i]) + 1 && (Answered(c, rest, i) || Waits(rest, i))
      ensures Waits(rest, i) ==> !o.PickOut?
    {
      assert log[..i] == rest[..i];
      WaitsMore(rest, o, i);
      if Answered(c, log, i) {
        var j :| Answers(c, log, i, j);
        AnswerInside(c, log, i, j);
        AnswersMore(c, rest, o, i, j);
        if Waits(rest, i) { AnswerWaits(c, rest, i, j); }
      }
    }
    forall j | 0 <= j < |rest| && rest[j].EndOut? ensures Answering(c, rest, j) {
      assert Answering(c, log, j);
      var i :| Answers(c, log, i, j);
      AnswersMore(c, rest, o, i, j);
    }
    assert log[|rest|] == o && log[..|rest|] == rest;
    if o.EndOut? {
      assert Answering(c, log, |rest|);
      var i :| Answers(c, log, i, |rest|);
      AnswersMore(c, rest, o, i, |rest|);
    }
    if o.PickOut? {
      forall i ensures !Waits(rest, i) { WaitsIsPick(rest, i); }
    }
  }

  lemma WaitsIsPick(log: seq<Output>, i: int)
    ensures Waits(log, i) ==> 0 <= i < |log| && log[i].PickOut?
  {
  }

  lemma AnswerInside(c: Config, log: seq<Output>, i: int, j: int)
    requires c.fs > 0.0 && Answers(c, log, i, j)
    ensures 0 <= i < j < |log| && log[i].PickOut? && log[j].EndOut?
  {
    hide Ends;
  }

  lemma AnswerWaits(c: Config, log: seq<Output>, i: int, j: int)
    requires c.fs > 0.0 && Waits(log, i)
    ensures !Answers(c, log, i, j)
  {
    hide Ends;
  }

  lemma PromisedAfter(c: Config, rest: seq<Output>, o: Output)
    requires c.fs > 0.0 && Promised(c, rest) && Fitting(c, rest, o)
    ensures Promised(c, rest + [o])
  {
    hide Ends, Answers;
    var log := rest + [o];
    assert forall k :: 0 <= k < |rest| ==> log[k] == rest[k];
    assert log[..|rest|] == rest && log[|rest|] == o;
    forall i | 0 <= i < |log| && log[i].PickOut?
      ensures log[i].pick.seqNo == PickCount(log[..i]) + 1 && (Answered(c, log, i) || Waits(log, i))
    {
      if i < |rest| {
        assert log[..i] == rest[..i];
        WaitsMore(rest, o, i);
        if Answered(c, rest, i) {
          var j :| Answers(c, rest, i, j);
          AnswerInside(c, rest, i, j);
          AnswersMore(c, rest, o, i, j);
        } else if o.EndOut? {
          var k :| Waits(rest, k) && Ends(c, rest[k].pick, o.end);
          OneWaits(rest, i, k);
          AnswersMore(c, rest, o, i, |rest|);
        }
      } else {
        LastWaits(rest, o);
      }
    }
    forall j | 0 <= j < |log| && log[j].EndOut? ensures Answering(c, log, j) {
      if j < |rest| {
        assert Answering(c, rest, j);
        var i :| Answers(c, rest, i, j);
        AnswersMore(c, rest, o, i, j);
      } else {
        var i :| Waits(rest, i) && Ends(c, rest[i].pick, o.end);
        AnswersMore(c, rest, o, i, j);
      }
    }
  }

  lemma OneWaits(log: seq<Output>, i: int, k: int)
    requires Waits(log, i) && Waits(log, k)
    ensures i == k
  {
  }

  lemma LastWaits(rest: seq<Output>, o: Output)
    requires o.PickOut?
    ensures Waits(rest + [o], |rest|)
  {
  }

  /** The pending pick is the one that waits. */
  ghost predicate Pends(p: Pending, log: seq<Output>) {
    match p
    case Broken => true
    case Closed => forall i :: !Waits(log, i)
    case Open(k) => exists i :: Waits(log, i) && log[i].pick == k
  }

  /** The promise in full: the log is unbroken exactly when every pick got one end, its own, before the next pick. */
  lemma {:induction false} PromiseExactly(c: Config, log: seq<Output>)
    requires c.fs > 0.0
    ensures PendingAfter(c, log) != Broken <==> Promised(c, log)
    ensures Promised(c, log) ==> Pends(PendingAfter(c, log), log)
  {
    hide Ends, Waits, Promised;
    if log == [] {
      NothingPromised(c);
    } else {
      var rest, o := log[..|log| - 1], log[|log| - 1];
      assert log == rest + [o];
      PromiseExactly(c, rest);
      if Promised(c, log) { PromisedBefore(c, rest, o); }
      if Promised(c, rest) {
        PendingFits(c, rest, o);
        if PendingAfter(c, log) != Broken {
          PromisedAfter(c, rest, o);
          PendsMore(c, rest, o);
        }
      }
    }
  }

  lemma NothingPromised(c: Config)
    requires c.fs > 0.0
    ensures Promised(c, []) && Pends(Closed, [])
  {
  }

  lemma WaitingIsOpen(c: Config, log: seq<Output>)
    requires c.fs > 0.0 && Pends(PendingAfter(c, log), log) && PendingAfter(c, log) != Broken
    ensures forall i :: Waits(log, i) ==> 0 <= i < |log| && log[i].PickOut? && PendingAfter(c, log) == Open(log[i].pick)
  {
    hide PendingAfter;
    forall i | Waits(log, i) ensures 0 <= i < |log| && log[i].PickOut? && PendingAfter(c, log) == Open(log[i].pick) {
      WaitsIsPick(log, i);
      var k :| Waits(log, k) && log[k].pick == PendingAfter(c, log).pick;
      OneWaits(log, i, k);
    }
  }

  /** The next output breaks the log exactly if it does not fit. */
  lemma PendingFits(c: Config, rest: seq<Output>, o: Output)
    requires c.fs > 0.0 && PendingAfter(c, rest) != Broken && Pends(PendingAfter(c, rest), rest)
    ensures PendingAfter(c, rest + [o]) != Broken <==> Fitting(c, rest, o)
  {
    hide Ends;
    assert (rest + [o])[..|rest|] == rest;
    if o.EndOut? {
      if i :| Waits(rest, i) && Ends(c, rest[i].pick, o.end) {
        var p := PendingAfter(c, rest);
        if p.Open? {
          var k :| Waits(rest, k) && rest[k].pick == p.pick;
          OneWaits(rest, i, k);
        }
      }
    }
  }

  lemma PendsMore(c: Config, rest: seq<Output>, o: Output)
    requires c.fs > 0.0 && PendingAfter(c, rest + [o]) != Broken && Pends(PendingAfter(c, rest), rest)
    ensures Pends(PendingAfter(c, rest + [o]), rest + [o])
  {
    hide Ends, Waits;
    var log := rest + [o];
    assert log[..|rest|] == rest;
    forall i | 0 <= i < |rest| ensures Waits(log, i) <==> Waits(rest, i) && o.StatusOut? { WaitsMore(rest, o, i); }
    forall i ensures Waits(log, i) ==> 0 <= i < |log| && log[i].PickOut? { WaitsIsPick(log, i); }
    forall i ensures Waits(rest, i) ==> 0 <= i < |rest| { WaitsIsPick(rest, i); }
    if o.PickOut? { LastWaits(rest, o); }
    assert forall k :: 0 <= k < |rest| ==> log[k] == rest[k];
  }

  // ---------------------------------------------------------------------
  // What a pick is judged on
  // ---------------------------------------------------------------------

  /** The segment's history: one entry per sample since segStart. */
  datatype History = History(segStart: nat, raw: seq<Vec3>, bp: seq<Vec3>, gr: seq<Vec3>, mag: seq<real>)

  ghost predicate Whole(h: History) { |h.raw| == |h.bp| == |h.gr| == |h.mag| }

  function AicFrom(c: Config, segStart: nat, trigK: nat): nat { MaxInt(trigK - c.aicPre, segStart) }

  /** Where the onset is placed: at the picker's index if that is not after the trigger. */
  function Onset(c: Config, w: seq<real>, from: nat, trigK: nat): (r: nat)
    requires from <= trigK
    ensures from <= r <= trigK
  {
    var i := D.AicIndex(w, c.log);
    if i >= 0 && from + i <= trigK then from + i else trigK
  }

  function TriggerOnset(c: Config, h: History, trigK: nat): (r: nat)
    requires h.segStart <= trigK && trigK + c.halfSecond <= h.segStart + |h.mag|
    ensures AicFrom(c, h.segStart, trigK) <= r <= trigK
  {
    var from := AicFrom(c, h.segStart, trigK);
    Onset(c, h.mag[from - h.segStart..trigK + c.halfSecond - h.segStart], from, trigK)
  }

  /** The quiet just before the onset. */
  function QuietWindow(c: Config, h: History, onset: nat): seq<real>
    requires h.segStart <= onset <= h.segStart + |h.mag|
  {
    var a, z := MaxInt(onset - c.preWindow, h.segStart), onset - c.fifthSecond;
    if z > a then h.mag[a - h.segStart..z - h.segStart] else []
  }

  function HalfBefore(c: Config, segStart: nat, onset: nat): nat { MaxInt(onset - c.halfSecond, segStart) }

  /** The evidence from an onset and a sample half a second before it, as slices of the unbounded history up to k. */
  ghost function EvidenceAt(c: Config, h: History, onset: nat, g: nat, k: nat, noise: seq<real>, staltaMax: real,
                            lastFF: real): Evidence
    requires c.fs > 0.0 && Whole(h) && h.segStart <= g <= onset <= k < h.segStart + |h.mag|
  {
    var s := h.segStart;
    Evidence(onset, QuietWindow(c, h, onset), h.gr[g - s],
             h.bp[onset - s..k + 1 - s], h.mag[onset - s..k + 1 - s], h.mag[g - s..k + 1 - s], h.gr[k - s],
             noise, staltaMax, lastFF >= TimeOf(c, onset) - 1.0)
  }

  /** The evidence of a trigger evaluated at k. */
  ghost function EvidenceOf(c: Config, h: History, trigK: nat, k: nat, noise: seq<real>, staltaMax: real,
                            lastFF: real): Evidence
    requires c.fs > 0.0 && Whole(h)
    requires h.segStart <= trigK <= k < h.segStart + |h.mag| && trigK + c.halfSecond <= k + 1
  {
    var onset := TriggerOnset(c, h, trigK);
    HalfBeforeBounds(c, h.segStart, onset);
    EvidenceAt(c, h, onset, HalfBefore(c, h.segStart, onset), k, noise, staltaMax, lastFF)
  }

  /** The pick a trigger evaluated at k must produce. */
  ghost function PickOf(c: Config, h: History, trigK: nat, k: nat, noise: seq<real>, staltaMax: real, lastFF: real,
                        seqNo: nat): Pick
    requires c.fs > 0.0 && Whole(h)
    requires h.segStart <= trigK <= k < h.segStart + |h.mag| && trigK + c.halfSecond <= k + 1
  {
    var e := EvidenceOf(c, h, trigK, k, noise, staltaMax, lastFF);
    var cls := ClassOf(c.gates, c.fs, e);
    Pick(seqNo, e.onset, trigK, k, cls, cls == Seismic, e)
  }

  /** The forced detrigger: a trigger this old has run for at least the maximum duration. */
  lemma MaxDuration(c: Config, n: nat)
    requires c.fs > 0.0
    ensures n as real / c.fs >= c.maxTriggerSec <==> n >= Ceil(R.GridPos(c.fs, c.maxTriggerSec))
  {
    var x := n as real / c.fs;
    assert x * c.fs == n as real;
    R.ScaleOrder(c.maxTriggerSec, x, c.fs);
  }

  lemma TimeGrows(c: Config, a: int, b: int)
    requires c.fs > 0.0 && a <= b
    ensures TimeOf(c, a) <= TimeOf(c, b)
  {
    if a < b { R.GridIncreasing(c.fs, a, b); }
  }

  lemma HalfBeforeBounds(c: Config, segStart: nat, onset: nat)
    requires segStart <= onset
    ensures segStart <= HalfBefore(c, segStart, onset) <= onset <= HalfBefore(c, segStart, onset) + c.halfSecond
  {
  }

  lemma EvidenceParts(c: Config, h: History, trigK: nat, k: nat, noise: seq<real>, staltaMax: real, lastFF: real)
    requires c.fs > 0.0 && Whole(h)
    requires h.segStart <= trigK <= k < h.segStart + |h.mag| && trigK + c.halfSecond <= k + 1
    ensures var onset := TriggerOnset(c, h, trigK);
            var g := HalfBefore(c, h.segStart, onset);
            h.segStart <= g <= onset <= k
            && EvidenceOf(c, h, trigK, k, noise, staltaMax, lastFF)
               == EvidenceAt(c, h, onset, g, k, noise, staltaMax, lastFF)
  {
    hide TriggerOnset, EvidenceAt;
    HalfBeforeBounds(c, h.segStart, TriggerOnset(c, h, trigK));
  }

  function MeanSquare(s: seq<real>): real
    requires s != []
  {
    D.TotalSquares(s) / |s| as real
  }

  /** A trigger record when the samples before index next have been seen. */
  ghost predicate TriggerTimes(c: Config, h: History, seqNo: nat, t: Trigger, next: nat)
    requires c.fs > 0.0
  {
    && h.segStart <= t.trigK < next <= h.segStart + |h.mag| && t.evalK == t.trigK + c.evalDelay
    && t.peak == Peak(h.mag[t.trigK + 1 - h.segStart..next - h.segStart])
    && (t.pick.None? ==> t.detrigK == -1 && next <= t.trigK + EvalAfter(c))
    && (t.pick.Some? ==> t.pick.value.seqNo == seqNo && t.pick.value.trig == t.trigK && next > t.trigK + EvalAfter(c))
    && (t.pick.Some? && t.detrigK < 0 ==> next - 1 - t.trigK < Ceil(R.GridPos(c.fs, c.maxTriggerSec)))
    && (t.detrigK >= 0 ==> t.endK == t.detrigK + c.endSettle && next <= t.endK && t.detrigK <= t.trigK + Longest(c))
  }

  /** A judged trigger has not outlived the longest one and its settling. */
  lemma WaitBound(c: Config, h: History, seqNo: nat, t: Trigger, next: nat)
    requires c.fs > 0.0 && TriggerTimes(c, h, seqNo, t, next)
    ensures t.pick.Some? ==> t.pick.value.trig < next <= t.pick.value.trig + Longest(c) + c.endSettle
  {
    hide Peak, R.GridPos;
  }

  /** Sample kk has been measured; whether to detrigger is still to be decided. */
  ghost predicate Measured(c: Config, h: History, seqNo: nat, t: Trigger, kk: nat)
    requires c.fs > 0.0
  {
    && h.segStart <= t.trigK < kk < h.segStart + |h.mag| && t.evalK == t.trigK + c.evalDelay
    && t.peak == Peak(h.mag[t.trigK + 1 - h.segStart..kk + 1 - h.segStart])
    && (t.pick.None? ==> t.detrigK == -1 && kk <= t.trigK + EvalAfter(c))
    && (t.pick.Some? ==> t.pick.value.seqNo == seqNo && t.pick.value.trig == t.trigK && kk >= t.trigK + EvalAfter(c))
    && (t.pick.Some? && t.detrigK < 0 ==>
          kk - 1 - t.trigK < Ceil(R.GridPos(c.fs, c.maxTriggerSec)) || kk == t.trigK + EvalAfter(c))
    && (t.detrigK >= 0 ==> t.endK == t.detrigK + c.endSettle && kk <= t.endK && t.detrigK <= t.trigK + Longest(c))
  }

  /** The running maxima after one more sample. */
  function Measure(t: Trigger, ratio: real, m: real): Trigger {
    t.(staltaMax := if ratio > t.staltaMax then ratio else t.staltaMax, peak := if m > t.peak then m else t.peak)
  }

  /** A judged trigger detriggers when the ratio falls or the maximum duration is reached. */
  function Detrigger(c: Config, t: Trigger, kk: nat, ratio: real): Trigger
    requires c.fs > 0.0
  {
    if t.pick.Some? && t.detrigK < 0 && (ratio < c.detriggerRatio || (kk - t.trigK) as real / c.fs >= c.maxTriggerSec)
    then t.(detrigK := kk, endK := kk + c.endSettle)
    else t
  }

  /** Recording later samples does not disturb the record. */
  lemma TriggerTimesAppend(c: Config, h: History, g: History, seqNo: nat, t: Trigger, next: nat)
    requires c.fs > 0.0 && TriggerTimes(c, h, seqNo, t, next) && g.segStart == h.segStart && h.mag <= g.mag
    ensures TriggerTimes(c, g, seqNo, t, next)
  {
    var s := h.segStart;
    assert h.mag[t.trigK + 1 - s..next - s] == g.mag[t.trigK + 1 - s..next - s];
    hide Peak, Longest, EvalAfter, R.GridPos;
  }

  /** The background below which no ratio is taken: the square of the amplitude floor over the trigger ratio. */
  function BackgroundFloor(a: real, b: real, r: real): (f: real)
    requires a > 0.0 && b > 0.0 && r > 0.0
    ensures f > 0.0
  {
    ProductPositive(a, b);
    PositiveQuotient(a * b, r);
    a * b / r
  }

  lemma PositiveQuotient(n: real, d: real)
    requires n > 0.0 && d > 0.0
    ensures n / d > 0.0
  {
    var q := n / d;
    assert q * d == n;
    R.ScaleOrder(0.0, q, d);
  }

  lemma NonNegativeIndex(fs: real, t: real)
    requires fs > 0.0 && t >= 0.0
    ensures Ceil(R.GridPos(fs, t)) >= 0
  {
    assert t * fs >= 0.0;
  }

  /** The trigger ratio: zero until warm, and never over a background below the amplitude floor. */
  function TriggerRatio(c: Config, s: D.Averages, minAmp: real): real
    requires c.triggerRatio > 0.0 && minAmp > 0.0
  {
    if !D.Warm(s, c.nLta) then 0.0
    else
      var floor := BackgroundFloor(minAmp, minAmp, c.triggerRatio);
      s.sta / (if s.lta > floor then s.lta else floor)
  }

  /** A listening phone triggers: the ratio is high enough, and so is the short-term level. */
  predicate Fires(c: Config, s: D.Averages, minAmp: real)
    requires c.triggerRatio > 0.0 && minAmp > 0.0
  {
    TriggerRatio(c, s, minAmp) >= c.triggerRatio && c.gates.sqrt(s.sta) >= minAmp
  }

  /** What decides how long stillness must last. */
  datatype Settling = Settling(disturbed: bool, handledAt: real, stillFrom: real, seconds: nat, quietG: Vec3)

  /** What a processor knows between samples, as far as listening and triggering go. */
  datatype Moment = Moment(state: State, handledAt: real, levels: nat, quietG: Vec3, sl: D.Averages,
                           secHist: seq<Second>, stillFrom: real, secE: real, secN: nat)

  /** How long stillness must last: shorter for a listening phone only briefly handled and back in its position. */
  function SettleTime(c: Config, s: Settling, g: Vec3): (r: real)
    ensures r == c.settleSec || r == c.resumeSettleSec
  {
    if s.disturbed && s.handledAt >= 0.0 && s.stillFrom >= 0.0 && s.stillFrom - s.handledAt <= c.resumeMaxSec
       && s.seconds >= 30 && c.resumeSettleSec > 0.0 && c.gates.angle(s.quietG, g) <= c.resumeMaxTilt
    then c.resumeSettleSec else c.settleSec
  }

  /** Still: a full window of remembered seconds, no recent free fall, and all of them alike. */
  predicate Stillness(c: Config, seconds: seq<Second>, t: real, lastFF: real, g: Vec3) {
    |seconds| == c.stillWindow + 1 && t - lastFF > c.stillWindow as real && AllStill(c, seconds, g)
  }

  /** The remembered seconds: one more than the stillness window. */
  function LastSeconds(c: Config, seconds: seq<Second>): seq<Second> {
    if |seconds| > c.stillWindow + 1 then seconds[1..] else seconds
  }

  /** The levels of the last quiet seconds, and where the next one goes: once all are there, over the oldest. */
  datatype Floor = Floor(levels: seq<real>, next: nat)

  function Quieted(c: Config, f: Floor, rms: real): Floor {
    if c.noiseCap == 0 then f
    else if |f.levels| < c.noiseCap then f.(levels := f.levels + [rms])
    else if f.next < |f.levels| then Floor(f.levels[f.next := rms], (f.next + 1) % c.noiseCap)
    else f
  }

  /** All remembered seconds point the same way, and those outside triggers are quiet. */
  predicate AllStill(c: Config, seconds: seq<Second>, g: Vec3) {
    forall s :: s in seconds ==> c.gates.angle(s.g, g) <= c.stillMaxTilt && (s.triggered || s.rms <= c.stillMaxRms)
  }

  /** The banks and the segment's history are those of its raw samples, filtered from its first one on. */
  ghost predicate Filtered(c: Config, h: History, bp: F.Bank, gr: F.Bank) {
    && F.AllDc(F.CascadeClone(c.band)) && F.AllDc(F.CascadeClone(c.gravity)) && h.raw != [] && Whole(h)
    && Passed(F.BankStart(c.band, h.raw[0]), h.raw, h.bp, bp)
    && Passed(F.BankStart(c.gravity, h.raw[0]), h.raw, h.gr, gr)
    && Measures(c, F.Energies(F.BankStart(c.band, h.raw[0]), h.raw), h.mag)
  }

  /** Bank k has turned the raw samples into these outputs and become bank l. */
  ghost predicate Passed(k: F.Bank, raw: seq<Vec3>, outs: seq<Vec3>, l: F.Bank) {
    l == F.BankAfter(k, raw) && outs == F.Outputs(k, raw)
  }

  /** The magnitudes are the roots of the energies. */
  ghost predicate Measures(c: Config, energies: seq<real>, mags: seq<real>) {
    |mags| == |energies| && forall i :: 0 <= i < |mags| ==> mags[i] == c.gates.sqrt(energies[i])
  }

  lemma PassedFirst(k: F.Bank, x: Vec3)
    ensures Passed(k, [x], [F.BankOut(k, x)], F.BankNext(k, x)) && F.Energies(k, [x]) == [F.Energy(F.BankOut(k, x))]
  {
    hide F.Energy, F.BankOut, F.BankNext;
    F.RunSnoc(k, [], x);
    assert [] + [x] == [x] && F.Outputs(k, []) == [] && F.Energies(k, []) == [];
  }

  lemma PassedNext(k: F.Bank, raw: seq<Vec3>, outs: seq<Vec3>, l: F.Bank, x: Vec3)
    requires Passed(k, raw, outs, l)
    ensures Passed(k, raw + [x], outs + [F.BankOut(l, x)], F.BankNext(l, x))
    ensures F.Energies(k, raw + [x]) == F.Energies(k, raw) + [F.Energy(F.BankOut(l, x))]
  {
    hide F.Energy, F.BankOut, F.BankNext;
    F.RunSnoc(k, raw, x);
  }

  /** The history with one more sample, filtered by banks b and g. */
  function Extended(c: Config, h: History, b: F.Bank, g: F.Bank, x: Vec3): History {
    h.(raw := h.raw + [x], bp := h.bp + [F.BankOut(b, x)], gr := h.gr + [F.BankOut(g, x)],
       mag := h.mag + [c.gates.sqrt(F.Energy(F.BankOut(b, x)))])
  }

  lemma FilteredFirst(c: Config, h: History, k: nat, x: Vec3)
    requires Designs(c) && h == History(k, [], [], [], [])
    ensures F.AllDc(F.CascadeClone(c.band)) && F.AllDc(F.CascadeClone(c.gravity))
    ensures var b, g := F.BankStart(c.band, x), F.BankStart(c.gravity, x);
            Filtered(c, Extended(c, h, b, g, x), F.BankNext(b, x), F.BankNext(g, x))
  {
    hide F.Energy, F.BankOut, F.BankNext, F.BankStart, F.AllDc, Passed, F.Energies;
    var b, g := F.BankStart(c.band, x), F.BankStart(c.gravity, x);
    PassedFirst(b, x);
    PassedFirst(g, x);
    assert [] + [x] == [x] && [] + [F.BankOut(b, x)] == [F.BankOut(b, x)];
    assert [] + [F.BankOut(g, x)] == [F.BankOut(g, x)];
    assert [x][0] == x;
  }

  lemma FilteredNext(c: Config, h: History, b: F.Bank, g: F.Bank, x: Vec3)
    requires Filtered(c, h, b, g)
    ensures Filtered(c, Extended(c, h, b, g, x), F.BankNext(b, x), F.BankNext(g, x))
  {
    hide F.Energy, F.BankOut, F.BankNext, F.BankStart, F.AllDc, Passed, F.Energies;
    PassedNext(F.BankStart(c.band, h.raw[0]), h.raw, h.bp, b, x);
    PassedNext(F.BankStart(c.gravity, h.raw[0]), h.raw, h.gr, g, x);
  }

  /** The history of a phone that lies differently. */
  function TurnHistory(m: F.Rotation, h: History): History {
    h.(raw := F.TurnAll(m, h.raw), bp := F.TurnAll(m, h.bp), gr := F.TurnAll(m, h.gr))
  }

  /** Two phones differing by a constant rotation hold turned histories, with the same magnitudes. */
  lemma TurnedMagnitudes(c: Config, m: F.Rotation, h: History, b: F.Bank, g: F.Bank, h2: History, b2: F.Bank,
                         g2: F.Bank)
    requires F.Orthogonal(m) && Filtered(c, h, b, g) && Filtered(c, h2, b2, g2)
    requires h2.segStart == h.segStart && h2.raw == F.TurnAll(m, h.raw)
    ensures h2 == TurnHistory(m, h)
  {
    hide F.Turn, F.BankStart, F.AlignedBank, F.Energies, F.Outputs, F.AllDc, F.Orthogonal;
    F.OrientationInvariance(m, c.band, h.raw);
    F.TurnedBankStart(m, c.band, h.raw[0]);
    F.TurnedBankStart(m, c.gravity, h.raw[0]);
    F.TurnedOutputs(m, F.BankStart(c.band, h.raw[0]), h.raw);
    F.TurnedOutputs(m, F.BankStart(c.gravity, h.raw[0]), h.raw);
    assert h2.raw[0] == F.Turn(m, h.raw[0]);
  }

  lemma DesignsBand(c: Config)
    requires Designs(c)
    ensures F.AllDc(F.CascadeClone(c.band)) && F.AllDc(F.CascadeClone(c.gravity))
  {
  }

  lemma MeasureOk(c: Config, h: History, seqNo: nat, t: Trigger, kk: nat, ratio: real)
    requires c.fs > 0.0 && TriggerTimes(c, h, seqNo, t, kk) && kk < h.segStart + |h.mag|
    ensures Measured(c, h, seqNo, Measure(t, ratio, h.mag[kk - h.segStart]), kk)
  {
    hide Peak, R.GridPos, Longest;
    var s := h.segStart;
    PeakStep(h.mag[t.trigK + 1 - s..kk - s], h.mag[kk - s], h.mag[t.trigK + 1 - s..kk + 1 - s]);
  }

  /** The evaluation happens at its appointed sample, and an end at once would be in time. */
  lemma JudgeOk(c: Config, h: History, seqNo: nat, t: Trigger, kk: nat)
    requires c.fs > 0.0 && Measured(c, h, seqNo, t, kk) && t.pick.None?
    ensures kk >= t.evalK <==> kk == t.trigK + EvalAfter(c)
    ensures kk >= t.evalK ==> h.segStart <= t.trigK <= kk <= t.trigK + Longest(c) + c.endSettle
    ensures kk >= t.evalK ==> forall p: Pick, g :: p.seqNo == seqNo + 1 && p.trig == t.trigK ==>
              Measured(c, h, seqNo + 1, t.(pick := Some(p), gPre := g), kk)
  {
    hide Peak, R.GridPos;
  }

  /** After the decision the record is in order for the next sample, or its end is due, and in time. */
  lemma DetriggerOk(c: Config, h: History, seqNo: nat, t: Trigger, kk: nat, ratio: real)
    requires c.fs > 0.0 && Measured(c, h, seqNo, t, kk)
    requires t.pick.None? ==> kk < t.evalK
    ensures var u := Detrigger(c, t, kk, ratio);
            u.gPre == t.gPre && u.pick == t.pick &&
            if u.detrigK >= 0 && kk >= u.endK
            then u.pick.Some? && h.segStart <= u.pick.value.trig <= kk <= u.pick.value.trig + Longest(c) + c.endSettle
            else TriggerTimes(c, h, seqNo, u, kk + 1)
  {
    MaxDuration(c, kk - t.trigK);
    hide Peak, R.GridPos;
  }

  ghost function ValuesOf(s: seq<R.Sample>): (r: seq<Vec3>)
    ensures |r| == |s|
  {
    if s == [] then [] else ValuesOf(s[..|s| - 1]) + [s[|s| - 1].v]
  }

  lemma ValuesMore(s: seq<R.Sample>, o: R.Sample)
    ensures ValuesOf(s + [o]) == ValuesOf(s) + [o.v]
  {
    assert (s + [o])[..|s|] == s;
  }

  class Processor {
    const c: Config
    const res: R.Resampler
    const raw: Rings.Ring<Vec3>
    const bpr: Rings.Ring<Vec3>
    const grv: Rings.Ring<Vec3>
    const mag: Rings.Ring<real>

    var started: bool
    var k: nat // next expected resampled index
    var segStart: nat
    var bp: F.Bank
    var gr: F.Bank
    var sl: D.Averages
    var secE: real
    var secN: nat
    var secHist: seq<Second>
    var noise: seq<real>
    var noiseI: nat
    var stillFrom: real
    var handledAt: real
    var quietG: Vec3
    var state: State
    var lastStat: real
    var lastState: State
    var ffRun: nat
    var lastFF: real
    var tr: Option<Trigger>
    var seqNo: nat

    /** Everything emitted so far, oldest first. */
    var log: seq<Output>

    ghost var h: History

    ghost predicate Wired()
      reads res, res.dts
    {
      ValidConfig(c) && Sized() && res.Valid() && res.Setting() == R.Setup(c.fs, c.gapMax, c.antiAlias)
    }

    ghost predicate Sized() {
      && BufferFits(c)
      && raw.b.Length == bpr.b.Length == grv.b.Length == mag.b.Length == c.bufferLen
      && raw.b != bpr.b && raw.b != grv.b && bpr.b != grv.b && mag.b != res.dts
    }

    ghost predicate NoiseOk()
      reads `noise, `noiseI
    {
      |noise| <= c.noiseCap && (c.noiseCap > 0 ==> noiseI < c.noiseCap)
    }

    /** The rings mirror the segment's history up to (not including) index next. */
    ghost predicate Recorded(next: nat)
      reads `h, `segStart, raw.b, bpr.b, grv.b, mag.b
    {
      && h.segStart == segStart && Whole(h) && next == segStart + |h.mag|
      && raw.Mirrors(h.raw, segStart) && bpr.Mirrors(h.bp, segStart)
      && grv.Mirrors(h.gr, segStart) && mag.Mirrors(h.mag, segStart)
    }

    /** The trigger record, when the samples before index next have been seen. */
    ghost predicate TriggerOk(next: nat)
      requires c.fs > 0.0
      reads `state, `tr, `started, `h, `segStart, `seqNo
    {
      && (state == Triggered <==> tr.Some?)
      && (tr.Some? ==> started && Whole(h) && h.segStart == segStart && TriggerTimes(c, h, seqNo, tr.value, next))
    }

    ghost predicate LogOk()
      requires c.fs > 0.0
      reads `log, `tr, `seqNo
    {
      && PickCount(log) == seqNo
      && PendingAfter(c, log) == if tr.Some? && tr.value.pick.Some? then Open(tr.value.pick.value) else Closed
    }

    /** The segment's raw history is exactly what the resampler has emitted since its last gap. */
    ghost predicate Follows()
      reads `started, `h, res
    {
      res.started ==> if started then h.raw == ValuesOf(res.emitted) && res.emitted != [] else res.emitted == []
    }

    ghost predicate Valid()
      reads this, res, res.dts, raw.b, bpr.b, grv.b, mag.b
    {
      && Follows()
      && Wired() && NoiseOk() && TriggerOk(k) && LogOk()
      && (res.started ==> res.k >= 0)
      && (started ==> Recorded(k) && Filtered(c, h, bp, gr) && res.started && k == res.k)
    }

    constructor (c: Config)
      requires ValidConfig(c)
      ensures Valid() && this.c == c && log == [] && !started && fresh(res) && fresh(res.dts) && res.heard == []
      ensures fresh(raw.b) && fresh(bpr.b) && fresh(grv.b) && fresh(mag.b)
    {
      var zero := F.Vec3(0.0, 0.0, 0.0);
      this.c := c;
      res := new R.Resampler(c.fs, c.gapMax, c.antiAlias);
      raw := new Rings.Ring<Vec3>(c.bufferLen, zero);
      bpr := new Rings.Ring<Vec3>(c.bufferLen, zero);
      grv := new Rings.Ring<Vec3>(c.bufferLen, zero);
      mag := new Rings.Ring<real>(c.bufferLen, 0.0);
      started, k, segStart := false, 0, 0;
      bp, gr, sl := F.Bank([], [], []), F.Bank([], [], []), D.Averages(0.0, 0.0, false, 0);
      secE, secN, secHist, noise, noiseI := 0.0, 0, [], [], 0;
      stillFrom, handledAt, quietG := -1.0, -1.0, zero;
      state, lastStat, lastState := Warmup, 0.0, Warmup;
      ffRun, lastFF := 0, -1000000000000000000.0;
      tr, seqNo, log := None, 0, [];
      h := History(0, [], [], [], []);
    }

    method Emit(o: Output)
      modifies `log
      ensures log == old(log) + [o]
    {
      log := log + [o];
    }

    method SetState(s: State, t: real)
      requires c.fs > 0.0
      modifies `state, `handledAt, `log, `lastStat, `lastState
      ensures state == s && log == old(log) + Told(old(state), s, t)
      ensures PickCount(log) == PickCount(old(log)) && PendingAfter(c, log) == PendingAfter(c, old(log))
    {
      if state == s { return; }
      if s == Disturbed && (state == Quiet || state == Triggered) {
        handledAt := t;
      }
      state := s;
      Appended(c, log, StatusOut(s, t));
      Emit(StatusOut(s, t));
      lastStat, lastState := t, s;
    }

    /** The stream broke: an emitted pick ends now, truncated; a trigger not yet judged is forgotten. */
    method OnGap(from: real)
      requires c.fs > 0.0 && TriggerOk(k) && LogOk()
      modifies `tr, `started, `state, `handledAt, `log, `lastStat, `lastState
      ensures TriggerOk(k) && LogOk() && !started && tr.None? && state == Warmup
      ensures var ends := if old(tr).Some? && old(tr).value.pick.Some?
                          then [EndOut(GapEnd(c, old(tr).value, old(tr).value.pick.value, from))] else [];
              log == old(log) + ends + Told(old(state), Warmup, from)
    {
      hide PendingAfter, PickCount, Longest;
      if tr.Some? && tr.value.pick.Some? {
        var p := tr.value.pick.value;
        var end := GapEnd(c, tr.value, p, from);
        Appended(c, log, EndOut(end));
        Emit(EndOut(end));
      }
      tr := None;
      started := false;
      SetState(Warmup, from);
    }

    method ClearSegment(k0: nat, x: Vec3)
      requires Designs(c)
      modifies `started, `segStart, `bp, `gr, `sl, `secE, `secN, `secHist, `stillFrom, `handledAt, `tr, `h
      ensures started && segStart == k0 && tr.None? && h == History(k0, [], [], [], [])
      ensures bp == F.BankStart(c.band, x) && gr == F.BankStart(c.gravity, x)
      ensures sl == D.Averages(0.0, 0.0, false, 0) && secN == 0 && secHist == [] && stillFrom == handledAt == -1.0
    {
      hide F.CascadeReset, F.Reset, F.CascadeClone, F.AllDc;
      bp, gr := F.BankStart(c.band, x), F.BankStart(c.gravity, x);
      started, segStart := true, k0;
      sl := D.Averages(0.0, 0.0, false, 0);
      secE, secN, secHist := 0.0, 0, [];
      stillFrom, handledAt := -1.0, -1.0;
      tr := None;
      h := History(k0, [], [], [], []);
    }

    /** Only ever called with no trigger open, so nothing emitted is left without its end. */
    method StartSegment(k0: nat, x: Vec3)
      requires Sized() && Designs(c) && tr.None? && LogOk()
      modifies `started, `segStart, `bp, `gr, `sl, `secE, `secN, `secHist, `stillFrom, `handledAt, `tr, `h, `state,
               `log, `lastStat, `lastState
      ensures TriggerOk(k0) && LogOk() && Recorded(k0) && started && segStart == k0
      ensures state == Warmup && tr.None? && old(log) <= log
      ensures h == History(k0, [], [], [], []) && bp == F.BankStart(c.band, x) && gr == F.BankStart(c.gravity, x)
    {
      hide Designs, F.BankStart, PendingAfter, PickCount, TriggerTimes, Recorded, TimeOf;
      ClearSegment(k0, x);
      SetState(Warmup, TimeOf(c, k0));
      NothingRecorded(k0);
    }

    lemma NothingRecorded(k0: nat)
      requires h == History(k0, [], [], [], []) && segStart == k0
      requires raw.b.Length > 0 && bpr.b.Length > 0 && grv.b.Length > 0 && mag.b.Length > 0
      ensures Recorded(k0)
    {
    }

    method StartTrigger(kk: nat, ratio: real)
      modifies `sl, `tr, `state
      ensures state == Triggered
      ensures tr == Some(Trigger(None, kk, kk + c.evalDelay, F.Vec3(0.0, 0.0, 0.0), 0.0, ratio, -1, -1))
      ensures sl == old(sl).(frozen := true)
    {
      sl := sl.(frozen := true);
      tr := Some(Trigger(None, kk, kk + c.evalDelay, F.Vec3(0.0, 0.0, 0.0), 0.0, ratio, -1, -1));
      state := Triggered;
    }

    /** The onset of a trigger, from the magnitudes around it. */
    method FindOnset(trigK: nat, kk: nat) returns (onset: nat)
      requires Sized() && Recorded(kk + 1) && segStart <= trigK <= kk
      requires kk <= trigK + EvalAfter(c) && trigK + c.halfSecond <= kk + 1
      ensures onset == TriggerOnset(c, h, trigK)
    {
      hide *;
      RecordedParts(kk + 1);
      OnsetWindow(trigK, kk);
      var from := AicFrom(c, segStart, trigK);
      var w := Magnitudes(from, trigK + c.halfSecond, kk + 1);
      onset := trigK;
      if |w| >= 8 {
        var i := D.AicPick(w, c.log);
        if i >= 0 && from + i <= trigK {
          onset := from + i;
        }
      }
    }

    lemma OnsetWindow(trigK: nat, kk: nat)
      requires Sized() && h.segStart == segStart && kk + 1 == segStart + |h.mag| && segStart <= trigK <= kk
      requires kk <= trigK + EvalAfter(c) && trigK + c.halfSecond <= kk + 1
      ensures var from := AicFrom(c, segStart, trigK);
              segStart <= from <= trigK && kk + 1 <= from + c.bufferLen
              && var w := h.mag[from - segStart..trigK + c.halfSecond - segStart];
                 (|w| < 8 ==> TriggerOnset(c, h, trigK) == trigK)
                 && (|w| >= 8 ==>
                       var i := D.AicIndex(w, c.log);
                       TriggerOnset(c, h, trigK) == if i >= 0 && from + i <= trigK then from + i else trigK)
    {
      hide D.BestSplit;
    }

    method Quietness(onset: nat, kk: nat) returns (pre: seq<real>)
      requires Sized() && Recorded(kk + 1) && segStart <= onset <= kk
      requires kk + 1 + c.preWindow <= onset + c.bufferLen
      ensures pre == QuietWindow(c, h, onset)
    {
      assert h.segStart == segStart && kk + 1 == segStart + |h.mag|;
      hide Recorded, Sized, Rings.Ring.Mirrors, Rings.Ring.Readable;
      var preStart, preEnd := MaxInt(onset - c.preWindow, segStart), onset - c.fifthSecond;
      pre := [];
      if preEnd > preStart {
        pre := Magnitudes(preStart, preEnd, kk + 1);
      }
    }

    /** The band-passed samples a..z-1. */
    method Axes(a: nat, z: nat) returns (w: seq<Vec3>)
      requires Sized() && Recorded(z) && segStart <= a <= z <= a + c.bufferLen
      ensures w == h.bp[a - segStart..z - segStart]
    {
      hide Rings.Ring.Mirrors, Rings.Ring.Readable;
      w := bpr.Span(a, z, h.bp, segStart);
    }

    /** The magnitudes of samples a..z-1. */
    method Magnitudes(a: nat, z: nat, next: nat) returns (w: seq<real>)
      requires Sized() && Recorded(next) && segStart <= a <= z <= next <= a + c.bufferLen
      ensures w == h.mag[a - segStart..z - segStart]
    {
      hide Rings.Ring.Mirrors, Rings.Ring.Readable;
      w := mag.Span(a, z, h.mag, segStart);
    }

    /** The gravity estimates at two recent samples. */
    method GravityPair(i: nat, kk: nat) returns (a: Vec3, z: Vec3)
      requires Sized() && Recorded(kk + 1) && segStart <= i <= kk < i + c.bufferLen
      ensures a == h.gr[i - segStart] && z == h.gr[kk - segStart]
    {
      assert grv.Readable(h.gr, segStart, i) && grv.Readable(h.gr, segStart, kk);
      a, z := grv.Get(i), grv.Get(kk);
    }

    /** Gathers a trigger's evidence from the rings at sample kk. */
    method Gather(t: Trigger, kk: nat) returns (e: Evidence)
      requires Sized() && Recorded(kk + 1) && segStart <= t.trigK <= kk
      requires kk <= t.trigK + EvalAfter(c) && t.trigK + c.halfSecond <= kk + 1
      ensures e == EvidenceOf(c, h, t.trigK, kk, noise, t.staltaMax, lastFF)
    {
      hide QuietWindow, TriggerOnset, TimeOf, HalfBefore, EvidenceOf, Rings.Ring.Mirrors, Rings.Ring.Readable;
      ghost var hist := h;
      var s := segStart;
      var onset := FindOnset(t.trigK, kk);
      var g := HalfBefore(c, s, onset);
      HalfBeforeBounds(c, s, onset);
      var pre := Quietness(onset, kk);
      var gPre, gNow := GravityPair(g, kk);
      var axes := Axes(onset, kk + 1);
      var mags := Magnitudes(onset, kk + 1, kk + 1);
      var strong := Magnitudes(g, kk + 1, kk + 1);
      EvidenceParts(c, hist, t.trigK, kk, noise, t.staltaMax, lastFF);
      e := Evidence(onset, pre, gPre, axes, mags, strong, gNow, noise, t.staltaMax, lastFF >= TimeOf(c, onset) - 1.0);
    }

    /** Evaluates the trigger at sample kk and emits its pick. */
    method Evaluate(t: Trigger, kk: nat) returns (p: Pick, gPre: Vec3)
      requires Sized() && Recorded(kk + 1) && segStart <= t.trigK <= kk
      requires kk == t.trigK + EvalAfter(c)
      requires PickCount(log) == seqNo && PendingAfter(c, log) == Closed
      modifies `seqNo, `log
      ensures p == PickOf(c, h, t.trigK, kk, noise, t.staltaMax, lastFF, seqNo) && p.seqNo == seqNo && p.trig == t.trigK
      ensures seqNo == old(seqNo) + 1 && log == old(log) + [PickOut(p)] && p.accepted == (p.cls == Seismic)
      ensures PickCount(log) == seqNo && PendingAfter(c, log) == Open(p)
    {
      hide EvidenceOf, PendingAfter, PickCount;
      var e := Gather(t, kk);
      var cls := Judge(c.gates, c.fs, e);
      seqNo := seqNo + 1;
      p := Pick(seqNo, e.onset, t.trigK, kk, cls, cls == Seismic, e);
      gPre := e.gPre;
      Appended(c, log, PickOut(p));
      Emit(PickOut(p));
    }

    /** Emits the end of an open pick and drops the trigger. */
    method Close(p: Pick, end: PickEnd)
      requires c.fs > 0.0 && PendingAfter(c, log) == Open(p) && Ends(c, p, end) && PickCount(log) == seqNo
      modifies `log, `tr, `sl
      ensures tr.None? && LogOk() && log == old(log) + [EndOut(end)] && sl == old(sl).(frozen := false)
    {
      hide PendingAfter, PickCount;
      Appended(c, log, EndOut(end));
      Emit(EndOut(end));
      tr := None;
      sl := sl.(frozen := false);
    }

    /** The device itself moved: close the pick at once and leave the eligible set. */
    method AbortMoved(t: Trigger, p: Pick, kk: nat)
      requires c.fs > 0.0 && state == Triggered
      requires PendingAfter(c, log) == Open(p) && PickCount(log) == seqNo
      requires p.trig <= kk <= p.trig + Longest(c) + c.endSettle && !p.accepted
      modifies `log, `tr, `sl, `stillFrom, `secHist, `state, `handledAt, `lastStat, `lastState
      ensures tr.None? && LogOk() && state == Disturbed
      ensures log == old(log)
                     + [EndOut(PickEnd(p.seqNo, TimeOf(c, kk), TimeOf(c, kk) - TimeOf(c, p.onset), t.peak,
                                       c.gates.angle(p.evidence.gPre, p.evidence.gNow), p.cls, false, false)),
                        StatusOut(Disturbed, TimeOf(c, kk))]
    {
      hide PendingAfter, PickCount, TimeOf, Longest;
      TimeGrows(c, kk, p.trig + Longest(c) + c.endSettle);
      Close(p, PickEnd(p.seqNo, TimeOf(c, kk), TimeOf(c, kk) - TimeOf(c, p.onset), t.peak,
                       c.gates.angle(p.evidence.gPre, p.evidence.gNow), p.cls, false, false));
      stillFrom, secHist := -1.0, [];
      SetState(Disturbed, TimeOf(c, kk));
    }

    /** The motion has ended: measure the final tilt, close the pick, and listen again if still in place. */
    method Finish(t: Trigger, p: Pick, kk: nat)
      requires Sized() && Recorded(kk + 1) && segStart <= kk && t.detrigK >= 0 && state == Triggered
      requires PendingAfter(c, log) == Open(p) && PickCount(log) == seqNo
      requires p.trig <= kk <= p.trig + Longest(c) + c.endSettle
      modifies `log, `tr, `sl, `stillFrom, `state, `handledAt, `lastStat, `lastState
      ensures tr.None? && LogOk()
      ensures var tilt := c.gates.angle(t.gPre, h.gr[kk - segStart]);
              state == (if tilt > c.stillMaxTilt then Disturbed else Quiet)
              && log == old(log) + [EndOut(FinalEnd(c, t, p, kk, tilt))]
                        + if tilt > c.stillMaxTilt then [StatusOut(Disturbed, TimeOf(c, kk))] else []
    {
      hide PendingAfter, PickCount, TimeOf, Longest;
      var g0, gNow := GravityPair(kk, kk);
      hide Rings.Ring.Mirrors, Rings.Ring.Readable;
      var tilt := c.gates.angle(t.gPre, gNow);
      var cls, acc := p.cls, p.accepted;
      if acc && tilt > c.gates.maxEventTilt {
        cls, acc := Handling, false;
      }
      TimeGrows(c, kk, p.trig + Longest(c) + c.endSettle);
      Close(p,
            PickEnd(p.seqNo, TimeOf(c, kk), TimeOf(c, t.detrigK) - TimeOf(c, p.onset), t.peak, tilt, cls, acc, false));
      if tilt > c.stillMaxTilt {
        stillFrom := -1.0;
        SetState(Disturbed, TimeOf(c, kk));
      } else {
        state := Quiet;
      }
    }

    lemma LogParts()
      requires c.fs > 0.0 && LogOk()
      ensures PickCount(log) == seqNo
      ensures PendingAfter(c, log) == if tr.Some? && tr.value.pick.Some? then Open(tr.value.pick.value) else Closed
    {
    }

    lemma LogJoined()
      requires c.fs > 0.0 && PickCount(log) == seqNo
      requires PendingAfter(c, log) == if tr.Some? && tr.value.pick.Some? then Open(tr.value.pick.value) else Closed
      ensures LogOk()
    {
    }

    lemma RecordedParts(next: nat)
      requires Recorded(next)
      ensures h.segStart == segStart && segStart <= next && Whole(h) && next == segStart + |h.mag| == segStart + |h.gr|
    {
      hide Rings.Ring.Mirrors;
    }

    /** Decides on the detrigger of a measured trigger, and ends it once it has settled. */
    method Settle(t0: Trigger, kk: nat, ratio: real)
      requires Sized() && Recorded(kk + 1) && segStart <= kk && started && state == Triggered
      requires Measured(c, h, seqNo, t0, kk) && (t0.pick.None? ==> kk < t0.evalK)
      requires PickCount(log) == seqNo && PendingAfter(c, log) == if t0.pick.Some? then Open(t0.pick.value) else Closed
      modifies `log, `tr, `sl, `stillFrom, `state, `handledAt, `lastStat, `lastState
      ensures TriggerOk(kk + 1) && LogOk() && old(log) <= log
      ensures var t := Detrigger(c, t0, kk, ratio);
              if t.detrigK >= 0 && kk >= t.endK
              then t.pick.Some? && tr.None? && |old(log)| < |log|
                   && log[|old(log)|]
                      == EndOut(FinalEnd(c, t, t.pick.value, kk, c.gates.angle(t.gPre, h.gr[kk - segStart])))
              else tr == Some(t) && log == old(log)
    {
      hide *;
      RecordedParts(kk + 1);
      Fits();
      DetriggerOk(c, h, seqNo, t0, kk, ratio);
      var t := Detrigger(c, t0, kk, ratio);
      tr := Some(t);
      if t.detrigK >= 0 && kk >= t.endK {
        Finish(t, t.pick.value, kk);
      } else {
        LogJoined();
      }
      TriggerJoined(kk + 1);
    }

    lemma Fits()
      requires Sized()
      ensures c.fs > 0.0 && c.halfSecond <= EvalAfter(c) + 1
    {
    }

    /** One more sample of an open trigger. */
    method UpdateTrigger(kk: nat, ratio: real, m: real)
      requires Sized() && Recorded(kk + 1) && tr.Some? && TriggerOk(kk) && LogOk()
      requires m == h.mag[kk - segStart]
      modifies `log, `tr, `sl, `seqNo, `stillFrom, `secHist, `state, `handledAt, `lastStat, `lastState
      ensures TriggerOk(kk + 1) && LogOk() && old(log) <= log
      // a new pick is judged on the history, at its appointed sample
      ensures seqNo > old(seqNo) <==> old(tr).value.pick.None? && kk == old(tr).value.trigK + EvalAfter(c)
      ensures seqNo > old(seqNo) ==>
                |old(log)| < |log| && log[|old(log)|].PickOut?
                && log[|old(log)|].pick
                   == PickOf(c, h, old(tr).value.trigK, kk, noise,
                             if ratio > old(tr).value.staltaMax then ratio else old(tr).value.staltaMax, lastFF, seqNo)
      // a judged one is measured, detriggered and, once it has settled, ended
      ensures old(tr).value.pick.Some? ==>
                var t := Detrigger(c, Measure(old(tr).value, ratio, m), kk, ratio);
                if t.detrigK >= 0 && kk >= t.endK
                then t.pick.Some? && tr.None? && |old(log)| < |log|
                     && log[|old(log)|]
                        == EndOut(FinalEnd(c, t, t.pick.value, kk, c.gates.angle(t.gPre, h.gr[kk - segStart])))
                else tr == Some(t) && log == old(log)
    {
      hide *;
      Fits();
      RecordedParts(kk + 1);
      TriggerParts(kk);
      LogParts();
      MeasureOk(c, h, seqNo, tr.value, kk, ratio);
      MeasureIs(tr.value, ratio, m);
      var t := Measure(tr.value, ratio, m);
      if t.pick.None? {
        JudgeOk(c, h, seqNo, t, kk);
        if kk >= t.evalK {
          var p, gPre := Evaluate(t, kk);
          t := t.(pick := Some(p), gPre := gPre);
          if p.cls == Handling || p.cls == Freefall {
            AbortMoved(t, p, kk);
            TriggerJoined(kk + 1);
            return;
          }
        }
      }
      Settle(t, kk, ratio);
    }

    lemma MeasureIs(t: Trigger, ratio: real, m: real)
      ensures Measure(t, ratio, m)
              == t.(staltaMax := if ratio > t.staltaMax then ratio else t.staltaMax,
                    peak := if m > t.peak then m else t.peak)
    {
    }

    /** Closes a second: its level and gravity, and since when the phone has been still. */
    method MeasureSecond(t: real) returns (still: bool, g: Vec3, rms: real)
      requires Sized() && segStart < k && Recorded(k) && secN > 0
      modifies `secE, `secN, `secHist, `stillFrom
      ensures g == h.gr[k - 1 - segStart] && rms == c.gates.sqrt(old(secE) / old(secN) as real) && secN == 0
      ensures secHist == LastSeconds(c, old(secHist) + [Second(g, rms, state == Triggered)])
      ensures still == Stillness(c, secHist, t, lastFF, g)
      ensures stillFrom == if !still then -1.0 else if old(stillFrom) < 0.0 then t - c.stillWindow as real
              else old(stillFrom)
    {
      var g0;
      g0, g := GravityPair(k - 1, k - 1);
      rms := c.gates.sqrt(secE / secN as real);
      secE, secN := 0.0, 0;
      secHist := secHist + [Second(g, rms, state == Triggered)];
      if |secHist| > c.stillWindow + 1 {
        secHist := secHist[1..];
      }
      still := |secHist| == c.stillWindow + 1 && t - lastFF > c.stillWindow as real && AllStill(c, secHist, g);
      if still {
        if stillFrom < 0.0 {
          stillFrom := t - c.stillWindow as real;
        }
      } else {
        stillFrom := -1.0;
      }
    }

    /** A quiet second feeds the noise floor; losing stillness drops the phone out of listening. */
    method QuietSecond(t: real, still: bool, g: Vec3, rms: real)
      requires c.fs > 0.0 && NoiseOk() && LogOk() && state == Quiet
      modifies `quietG, `noise, `noiseI, `state, `handledAt, `log, `lastStat, `lastState
      ensures NoiseOk() && LogOk() && old(log) <= log && state == (if still then Quiet else Disturbed)
      ensures Floor(noise, noiseI) == Quieted(c, Floor(old(noise), old(noiseI)), rms)
      ensures quietG == if still then g else old(quietG)
    {
      hide PendingAfter, PickCount;
      if still {
        quietG := g;
      }
      if c.noiseCap > 0 {
        if |noise| < c.noiseCap {
          noise := noise + [rms];
        } else {
          noise := noise[noiseI := rms];
          noiseI := (noiseI + 1) % c.noiseCap;
        }
      }
      if !still {
        SetState(Disturbed, t);
      }
    }

    /** The seeding window: at most the last ten seconds, only the still part, only this segment. */
    function SeedFrom(): nat
      requires c.fs > 0.0
      reads `k, `stillFrom, `segStart
    {
      MaxInt(MaxInt(k - c.seedSpan, (R.GridPos(c.fs, stillFrom) + 0.5).Floor), segStart)
    }

    lemma SeedBounds()
      requires Sized() && segStart < k && Recorded(k) && R.GridPos(c.fs, stillFrom) <= (k - 1) as real
      ensures c.fs > 0.0 && segStart <= SeedFrom() < k <= SeedFrom() + c.seedSpan <= SeedFrom() + c.bufferLen
      ensures k == segStart + |h.mag| && (c.nLta > 0.0 ==> Ceil(c.nLta) >= 0)
    {
      hide R.GridPos, Rings.Ring.Mirrors, Rings.Ring.Readable;
    }

    /** The averages of a settled background: both the mean square of the still part, and warm. */
    ghost function Background(): D.Averages
      requires c.fs > 0.0 && segStart <= SeedFrom() < k == segStart + |h.mag|
      reads `k, `stillFrom, `segStart, `h
    {
      var e := MeanSquare(h.mag[SeedFrom() - segStart..k - segStart]);
      D.Averages(e, e, false, if c.nLta > 0.0 then Ceil(c.nLta) else 0)
    }

    ghost predicate Reseeded()
      requires c.fs > 0.0
      reads `k, `stillFrom, `segStart, `h, `sl
    {
      segStart <= SeedFrom() < k == segStart + |h.mag| && sl == Background()
    }

    /** Whether the phone listens after a second that it began in state `was`; the second is already on record. */
    ghost predicate Listens(was: State, handled: real, seconds: nat, position: Vec3, t: real, rate: real)
      requires segStart < k == segStart + |h.gr|
      reads `k, `segStart, `h, `secHist, `stillFrom, `lastFF
    {
      var g := h.gr[k - 1 - segStart];
      Stillness(c, secHist, t, lastFF, g)
      && (was == Quiet
          || (was != Triggered && rate >= c.minInputRate
              && t - stillFrom >= SettleTime(c, Settling(was == Disturbed, handled, stillFrom, seconds, position), g)))
    }

    /** Since when the phone has been still, after another second. */
    ghost function StillSince(before: real, t: real): real
      requires segStart < k == segStart + |h.gr|
      reads `k, `segStart, `h, `secHist, `lastFF
    {
      if !Stillness(c, secHist, t, lastFF, h.gr[k - 1 - segStart]) then -1.0
      else if before < 0.0 then t - c.stillWindow as real
      else before
    }

    ghost function Now(): Moment
      reads this
    {
      Moment(state, handledAt, |noise|, quietG, sl, secHist, stillFrom, secE, secN)
    }

    /** A second has closed with a sample of this magnitude: what it leaves of the moment before the sample. */
    ghost predicate SecondClosed(b: Moment, after: State, levels: D.Averages, m: real, t: real, rate: real)
      requires c.fs > 0.0 && c.nSta != 0.0 && c.nLta != 0.0 && segStart < k == segStart + |h.gr| == segStart + |h.mag|
      reads `k, `segStart, `h, `secHist, `stillFrom, `lastFF
    {
      var rms := c.gates.sqrt((b.secE + m * m) / (b.secN + 1) as real);
      && secHist == LastSeconds(c, b.secHist + [Second(h.gr[k - 1 - segStart], rms, b.state == Triggered)])
      && stillFrom == StillSince(b.stillFrom, t)
      && after == (if b.state == Triggered then Triggered
                   else if Listens(b.state, b.handledAt, b.levels, b.quietG, t, rate) then Quiet
                   else if b.state == Quiet then Disturbed else b.state)
      && if b.state != Quiet && after == Quiet then segStart <= SeedFrom() < k && levels == Background()
         else levels == D.Follow(b.sl, m * m, c.nSta, c.nLta)
    }

    /** Seeds the averages with the settled background energy. */
    method Seed()
      requires Sized() && segStart < k && Recorded(k) && R.GridPos(c.fs, stillFrom) <= (k - 1) as real
      modifies `sl
      ensures Reseeded() && k <= SeedFrom() + c.seedSpan
    {
      hide *;
      SeedBounds();
      var from := SeedFrom();
      var w := Magnitudes(from, k, k);
      var e := MeanSquare(w);
      sl := D.Averages(e, e, false, if c.nLta > 0.0 then Ceil(c.nLta) else 0);
      ReseededIs();
    }

    lemma ReseededIs()
      requires c.fs > 0.0 && segStart <= SeedFrom() < k == segStart + |h.mag|
      ensures var e := MeanSquare(h.mag[SeedFrom() - segStart..k - segStart]);
              Reseeded() <==> sl == D.Averages(e, e, false, if c.nLta > 0.0 then Ceil(c.nLta) else 0)
    {
      hide SeedFrom, MeanSquare;
    }

    /**
     Every whole second of grid time. A listening phone stays so exactly while it is still; a phone not listening
     starts to exactly when it has been still long enough on a fast enough stream; a trigger is not disturbed.
     */
    method OnSecond(t: real, rate: real)
      requires c.fs > 0.0 && Sized() && segStart < k && Recorded(k) && secN > 0 && NoiseOk() && LogOk()
      requires c.settleSec >= 0.0 && c.resumeSettleSec >= 0.0 && t == TimeOf(c, k - 1)
      modifies `secE, `secN, `secHist, `stillFrom, `quietG, `noise, `noiseI, `sl, `state, `handledAt, `log, `lastStat,
               `lastState
      ensures NoiseOk() && LogOk() && old(log) <= log && secN == 0 && stillFrom == StillSince(old(stillFrom), t)
      ensures state == (if old(state) == Triggered then Triggered
                        else if Listens(old(state), old(handledAt), old(|noise|), old(quietG), t, rate) then Quiet
                        else if old(state) == Quiet then Disturbed else old(state))
      // starting to listen, the averages are those of the settled background
      ensures if old(state) != Quiet && state == Quiet then Reseeded() else sl == old(sl)
      // a quiet second feeds the noise floor, and where the phone then points
      ensures var g := h.gr[k - 1 - segStart];
              var rms := c.gates.sqrt(old(secE) / old(secN) as real);
              secHist == LastSeconds(c, old(secHist) + [Second(g, rms, old(state) == Triggered)])
              && (if old(state) == Quiet
                  then Floor(noise, noiseI) == Quieted(c, Floor(old(noise), old(noiseI)), rms)
                       && quietG == if Stillness(c, secHist, t, lastFF, g) then g else old(quietG)
                  else noise == old(noise) && noiseI == old(noiseI) && quietG == old(quietG))
    {
      hide *;
      RecordedParts(k);
      ghost var was, handled, seconds, position := state, handledAt, |noise|, quietG;
      var still, g := NoteSecond(t);
      ListensIs(was, handled, seconds, position, t, rate);
      if state == Warmup || state == Disturbed {
        SettleIn(t, rate, still, g);
      }
      Report(t);
    }

    /** What a second leaves behind: its record, the noise floor, and whether a listening phone stays so. */
    method NoteSecond(t: real) returns (still: bool, g: Vec3)
      requires c.fs > 0.0 && Sized() && segStart < k && Recorded(k) && secN > 0 && NoiseOk() && LogOk()
      modifies `secE, `secN, `secHist, `stillFrom, `quietG, `noise, `noiseI, `state, `handledAt, `log, `lastStat,
               `lastState
      ensures NoiseOk() && LogOk() && old(log) <= log && secN == 0
      ensures g == h.gr[k - 1 - segStart] && still == Stillness(c, secHist, t, lastFF, g)
      ensures stillFrom == StillSince(old(stillFrom), t)
      ensures var rms := c.gates.sqrt(old(secE) / old(secN) as real);
              secHist == LastSeconds(c, old(secHist) + [Second(g, rms, old(state) == Triggered)])
              && if old(state) == Quiet
                 then state == (if still then Quiet else Disturbed) && quietG == (if still then g else old(quietG))
                      && Floor(noise, noiseI) == Quieted(c, Floor(old(noise), old(noiseI)), rms)
                 else state == old(state) && noise == old(noise) && noiseI == old(noiseI) && quietG == old(quietG)
                      && handledAt == old(handledAt)
    {
      hide *;
      RecordedParts(k);
      ghost var before := stillFrom;
      var rms;
      still, g, rms := MeasureSecond(t);
      StillSinceIs(before, t);
      if state == Quiet {
        QuietSecond(t, still, g, rms);
      }
    }

    lemma StillSinceIs(before: real, t: real)
      requires segStart < k == segStart + |h.gr|
      ensures StillSince(before, t)
              == if !Stillness(c, secHist, t, lastFF, h.gr[k - 1 - segStart]) then -1.0
                 else if before < 0.0 then t - c.stillWindow as real else before
    {
    }

    lemma ListensIs(was: State, handled: real, seconds: nat, position: Vec3, t: real, rate: real)
      requires segStart < k == segStart + |h.gr|
      ensures var g := h.gr[k - 1 - segStart];
              var still := Stillness(c, secHist, t, lastFF, g);
              var long := SettleTime(c, Settling(was == Disturbed, handled, stillFrom, seconds, position), g);
              Listens(was, handled, seconds, position, t, rate)
              <==> if was == Quiet then still
                   else was != Triggered && still && t - stillFrom >= long && rate >= c.minInputRate
    {
      hide Stillness, SettleTime;
    }

    /** A status at least every interval, and after every change. */
    method Report(t: real)
      requires c.fs > 0.0 && LogOk()
      modifies `log, `lastStat, `lastState
      ensures LogOk() && old(log) <= log
      ensures log == if t - old(lastStat) >= c.statusInterval || state != old(lastState)
              then old(log) + [StatusOut(state, t)] else old(log)
    {
      hide PendingAfter, PickCount;
      if t - lastStat >= c.statusInterval || state != lastState {
        Appended(c, log, StatusOut(state, t));
        Emit(StatusOut(state, t));
        lastStat, lastState := t, state;
      }
    }

    /** A phone that is not listening starts to once it has settled. */
    method SettleIn(t: real, rate: real, still: bool, g: Vec3)
      requires Sized() && segStart < k && Recorded(k) && LogOk() && (state == Warmup || state == Disturbed)
      requires c.settleSec >= 0.0 && c.resumeSettleSec >= 0.0 && t == TimeOf(c, k - 1)
      modifies `sl, `state, `handledAt, `log, `lastStat, `lastState
      ensures LogOk() && old(log) <= log
      ensures var long := SettleTime(c, Settling(old(state) == Disturbed, old(handledAt), stillFrom, |noise|, quietG),
                                     g);
              state == if still && t - stillFrom >= long && rate >= c.minInputRate then Quiet else old(state)
      ensures if state == Quiet then Reseeded() else sl == old(sl)
    {
      hide PendingAfter, PickCount, MeanSquare, R.GridPos, SettleTime, SeedFrom, Recorded, Background,
           Rings.Ring.Mirrors, Rings.Ring.Readable;
      var settle := SettleTime(c, Settling(state == Disturbed, handledAt, stillFrom, |noise|, quietG), g);
      SettleTimeBound(Settling(state == Disturbed, handledAt, stillFrom, |noise|, quietG), g);
      if still && t - stillFrom >= settle && rate >= c.minInputRate {
        SettledBefore(stillFrom, t);
        Seed();
        SetState(Quiet, t);
      }
    }

    lemma SettleTimeBound(s: Settling, g: Vec3)
      requires c.settleSec >= 0.0 && c.resumeSettleSec >= 0.0
      ensures SettleTime(c, s, g) >= 0.0
    {
    }

    lemma SettledBefore(a: real, t: real)
      requires c.fs > 0.0 && k >= 1 && a <= t == TimeOf(c, k - 1)
      ensures R.GridPos(c.fs, a) <= (k - 1) as real
    {
      R.GridOrder(c.fs, k - 1, t);
      R.ScaleOrder(a, t, c.fs);
    }

    /** Stores one processed sample in the rings. */
    method Record(kk: nat, x: Vec3, b: Vec3, g: Vec3, m: real)
      requires Sized() && Recorded(kk)
      modifies `h, raw.b, bpr.b, grv.b, mag.b
      ensures Recorded(kk + 1)
      ensures h
              == old(h).(raw := old(h).raw + [x], bp := old(h).bp + [b], gr := old(h).gr + [g], mag := old(h).mag + [m])
    {
      hide Rings.Ring.Mirrors, Rings.Ring.Readable;
      raw.Set(kk, x, h.raw, segStart);
      bpr.Set(kk, b, h.bp, segStart);
      grv.Set(kk, g, h.gr, segStart);
      mag.Set(kk, m, h.mag, segStart);
      h := h.(raw := h.raw + [x], bp := h.bp + [b], gr := h.gr + [g], mag := h.mag + [m]);
    }

    /** Free fall: the raw magnitude stays far below gravity. */
    method TrackFreefall(x: Vec3, t: real)
      modifies `ffRun, `lastFF
    {
      if c.gates.sqrt(F.Dot(x, x)) < c.freefallBelow {
        ffRun := ffRun + 1;
        if ffRun >= c.freefallMin {
          lastFF := t;
        }
      } else {
        ffRun := 0;
      }
    }

    /** Filters one sample and files it; the history of the band-passed series is that of the filter bank. */
    method Filter(kk: nat, x: Vec3) returns (m: real)
      requires Sized() && Recorded(kk)
      modifies `bp, `gr, `h, raw.b, bpr.b, grv.b, mag.b
      ensures Recorded(kk + 1) && segStart == old(segStart)
      ensures bp == F.BankNext(old(bp), x) && gr == F.BankNext(old(gr), x)
      ensures m == c.gates.sqrt(F.Energy(F.BankOut(old(bp), x)))
      ensures h == old(h).(raw := old(h).raw + [x], bp := old(h).bp + [F.BankOut(old(bp), x)],
                           gr := old(h).gr + [F.BankOut(old(gr), x)], mag := old(h).mag + [m])
    {
      hide F.BankOut, F.BankNext, F.Energy, Recorded;
      var b, g := F.BankOut(bp, x), F.BankOut(gr, x);
      bp, gr := F.BankNext(bp, x), F.BankNext(gr, x);
      m := c.gates.sqrt(F.Energy(b));
      Record(kk, x, b, g, m);
    }

    /** Starts a segment if none is running. */
    method Ready(kk: nat, x: Vec3)
      requires Designs(c) && Sized() && TriggerOk(k) && LogOk() && (started ==> k == kk && Recorded(k))
      modifies `started, `segStart, `bp, `gr, `sl, `secE, `secN, `secHist, `stillFrom, `handledAt, `tr, `h, `state,
               `log, `lastStat, `lastState
      ensures TriggerOk(kk) && LogOk() && old(log) <= log && started && Recorded(kk)
      ensures if old(started) then h == old(h) && bp == old(bp) && gr == old(gr) && segStart == old(segStart)
              else h == History(kk, [], [], [], []) && segStart == kk
                   && bp == F.BankStart(c.band, x) && gr == F.BankStart(c.gravity, x)
    {
      hide *;
      DesignsBand(c);
      Fits();
      TriggerParts(k);
      if !started || kk != k {
        StartSegment(kk, x);
      }
    }

    /** Starts a segment if none is running, then filters and files the sample. */
    method Arrive(kk: nat, x: Vec3) returns (m: real)
      requires Designs(c) && Sized() && NoiseOk() && TriggerOk(k) && LogOk()
      requires started ==> k == kk && Recorded(k) && Filtered(c, h, bp, gr)
      modifies this, raw.b, bpr.b, grv.b, mag.b
      ensures NoiseOk() && TriggerOk(kk) && LogOk() && old(log) <= log && started && k == kk + 1 && Recorded(k)
              && Filtered(c, h, bp, gr)
      ensures segStart == (if old(started) then old(segStart) else kk)
              && h.raw == (if old(started) then old(h).raw else []) + [x]
      ensures segStart <= kk && m == h.mag[kk - segStart]
    {
      hide *;
      DesignsBand(c);
      Fits();
      ghost var running := started;
      Ready(kk, x);
      TriggerParts(kk);
      ghost var h0, b0, g0 := h, bp, gr;
      RecordedParts(kk);
      k := kk + 1;
      m := Filter(kk, x);
      RecordedParts(kk + 1);
      if tr.Some? { TriggerTimesAppend(c, h0, h, seqNo, tr.value, kk); }
      TriggerJoined(kk);
      ExtendedIs(h0, b0, g0, x);
      if !running {
        FilteredFirst(c, h0, kk, x);
      } else {
        FilteredNext(c, h0, b0, g0, x);
      }
    }

    lemma ExtendedIs(h0: History, b0: F.Bank, g0: F.Bank, x: Vec3)
      ensures Extended(c, h0, b0, g0, x)
              == h0.(raw := h0.raw + [x], bp := h0.bp + [F.BankOut(b0, x)], gr := h0.gr + [F.BankOut(g0, x)],
                     mag := h0.mag + [c.gates.sqrt(F.Energy(F.BankOut(b0, x)))])
    {
    }

    /** One resampled sample. Its index is always the expected one, so a running segment is never cut short. */
    method OnSample(o: R.Sample, rate: real, minAmp: real, ghost idx: nat)
      requires ValidConfig(c) && Sized() && NoiseOk() && TriggerOk(k) && LogOk() && minAmp > 0.0
      requires o.t == TimeOf(c, idx) && (started ==> k == idx && Recorded(k) && Filtered(c, h, bp, gr))
      modifies this, raw.b, bpr.b, grv.b, mag.b
      ensures NoiseOk() && TriggerOk(k) && LogOk() && old(log) <= log
      ensures started && k == idx + 1 && Recorded(k) && Filtered(c, h, bp, gr)
      ensures segStart == (if old(started) then old(segStart) else idx)
      ensures h.raw == (if old(started) then old(h).raw else []) + [o.v]
    {
      assert Designs(c) && c.fs > 0.0;
      hide *;
      var kk := IndexOf(o, idx);
      var m := Arrive(kk, o.v);
      ghost var after, levels := Detector(kk, o, m, rate, minAmp);
    }

    method IndexOf(o: R.Sample, ghost idx: nat) returns (kk: nat)
      requires c.fs > 0.0 && o.t == TimeOf(c, idx)
      ensures kk == idx
    {
      R.GridOrder(c.fs, idx, o.t);
      var i := (R.GridPos(c.fs, o.t) + 0.5).Floor;
      assert i == idx;
      return i;
    }

    /** The running averages and this second's energy. */
    method Average(o: R.Sample, m: real, minAmp: real) returns (ratio: real)
      requires c.fs > 0.0 && c.nSta != 0.0 && c.nLta != 0.0 && c.triggerRatio > 0.0 && minAmp > 0.0
      modifies `ffRun, `lastFF, `sl, `secE, `secN
      ensures sl == D.Follow(old(sl), m * m, c.nSta, c.nLta) && ratio == TriggerRatio(c, sl, minAmp)
      ensures secN == old(secN) + 1 && secE == old(secE) + m * m
    {
      hide D.Follow;
      TrackFreefall(o.v, o.t);
      var e := m * m;
      sl := D.Follow(sl, e, c.nSta, c.nLta);
      ratio := TriggerRatio(c, sl, minAmp);
      secE, secN := secE + e, secN + 1;
    }

    /** Starts a trigger when the ratio and the amplitude call for one; follows an open one. */
    method StepTrigger(kk: nat, ratio: real, m: real, minAmp: real)
      requires Sized() && TriggerOk(kk) && LogOk() && started && Recorded(kk + 1) && segStart <= kk
               && m == h.mag[kk - segStart]
      requires c.triggerRatio > 0.0 && minAmp > 0.0
      modifies `sl, `stillFrom, `secHist, `state, `handledAt, `log, `lastStat, `lastState, `tr, `seqNo
      ensures TriggerOk(kk + 1) && LogOk() && old(log) <= log
      ensures old(state) == Quiet ==>
                (state == Triggered <==> ratio >= c.triggerRatio && c.gates.sqrt(old(sl).sta) >= minAmp)
      ensures old(state) == Quiet && state != Triggered ==> state == Quiet
      ensures old(state) != Quiet && old(state) != Triggered ==> state == old(state) && log == old(log)
      ensures old(state) != Triggered ==>
                unchanged(`secHist, `stillFrom)
                && sl == if state == Triggered then old(sl).(frozen := true) else old(sl)
    {
      hide PendingAfter, PickCount, Rings.Ring.Mirrors, Rings.Ring.Readable;
      if state == Quiet {
        if ratio >= c.triggerRatio && c.gates.sqrt(sl.sta) >= minAmp {
          StartTrigger(kk, ratio);
          assert h.mag[kk + 1 - segStart..kk + 1 - segStart] == [];
        }
      } else if state == Triggered {
        hide TriggerTimes;
        UpdateTrigger(kk, ratio, m);
      }
    }

    /**
     The detector's part of a sample: averages, the second's bookkeeping, then the trigger machine. `after` and `levels`
     are the state and the averages before that machine.
     */
    method Detector(kk: nat, o: R.Sample, m: real, rate: real, minAmp: real)
      returns (ghost after: State, ghost levels: D.Averages)
      requires ValidConfig(c) && Sized() && NoiseOk() && TriggerOk(kk) && LogOk() && minAmp > 0.0
      requires started && k == kk + 1 && Recorded(k) && segStart <= kk && m == h.mag[kk - segStart]
               && o.t == TimeOf(c, kk)
      requires Filtered(c, h, bp, gr)
      modifies this
      ensures NoiseOk() && TriggerOk(k) && LogOk() && old(log) <= log
      ensures started && k == old(k) && segStart == old(segStart) && h == old(h)
      ensures Recorded(k) && Filtered(c, h, bp, gr)
      ensures secN == if (kk + 1) % c.second == 0 then 0 else old(secN) + 1
      ensures after == Triggered <==> old(state) == Triggered
      ensures if (kk + 1) % c.second != 0 then after == old(state) && levels == D.Follow(old(sl), m * m, c.nSta, c.nLta)
              else after != Triggered ==> SecondClosed(old(Now()), after, levels, m, o.t, rate)
      // the ratio is that of the averages before any reseeding
      ensures after == Quiet ==>
                (state == Triggered <==>
                   TriggerRatio(c, D.Follow(old(sl), m * m, c.nSta, c.nLta), minAmp) >= c.triggerRatio
                   && c.gates.sqrt(levels.sta) >= minAmp)
                && (state != Triggered ==> state == Quiet)
      ensures after != Triggered ==> sl == if state == Triggered then levels.(frozen := true) else levels
      ensures after != Quiet && after != Triggered ==> state == after
      ensures (kk + 1) % c.second != 0 && old(state) == Quiet ==>
                (state == Triggered <==> Fires(c, D.Follow(old(sl), m * m, c.nSta, c.nLta), minAmp))
      ensures (kk + 1) % c.second != 0 && old(state) != Quiet && old(state) != Triggered ==>
                state == old(state) && log == old(log)
    {
      hide *;
      DetectorNeeds();
      RecordedParts(k);
      ghost var before := Now();
      NowIs();
      var ratio := Level(kk, o, m, rate, minAmp);
      FiresIs(D.Follow(before.sl, m * m, c.nSta, c.nLta), minAmp);
      after, levels := state, sl;
      StepTrigger(kk, ratio, m, minAmp);
    }

    /** The averages with this sample, and the second's bookkeeping if one is complete. */
    method Level(kk: nat, o: R.Sample, m: real, rate: real, minAmp: real) returns (ratio: real)
      requires ValidConfig(c) && Sized() && NoiseOk() && TriggerOk(kk) && LogOk() && minAmp > 0.0
      requires started && k == kk + 1 && Recorded(k) && segStart <= kk && o.t == TimeOf(c, kk)
      modifies `ffRun, `lastFF, `sl, `secE, `secN, `secHist, `stillFrom, `quietG, `noise, `noiseI, `state, `handledAt,
               `log, `lastStat, `lastState
      ensures NoiseOk() && TriggerOk(kk) && LogOk() && old(log) <= log
      ensures state == Triggered <==> old(state) == Triggered
      ensures ratio == TriggerRatio(c, D.Follow(old(sl), m * m, c.nSta, c.nLta), minAmp)
      ensures if (kk + 1) % c.second == 0 then secN == 0 && SecondClosed(old(Now()), state, sl, m, o.t, rate)
              else secN == old(secN) + 1 && state == old(state) && log == old(log)
                   && sl == D.Follow(old(sl), m * m, c.nSta, c.nLta)
    {
      hide *;
      DetectorNeeds();
      TriggerParts(kk);
      RecordedParts(k);
      ghost var before := Now();
      NowIs();
      ratio := Average(o, m, minAmp);
      NowIs();
      if (kk + 1) % c.second == 0 {
        CloseSecond(before, m, o.t, rate);
      }
      TriggerJoined(kk);
    }

    lemma DetectorNeeds()
      requires ValidConfig(c)
      ensures c.fs > 0.0 && c.second > 0 && c.nSta != 0.0 && c.nLta != 0.0 && c.triggerRatio > 0.0
      ensures c.settleSec >= 0.0 && c.resumeSettleSec >= 0.0
    {
      hide Designs;
    }

    /** Closes the second that ends with a sample of this magnitude, which is already in the averages. */
    method CloseSecond(ghost b: Moment, m: real, t: real, rate: real)
      requires ValidConfig(c) && c.fs > 0.0 && c.nSta != 0.0 && c.nLta != 0.0 && Sized() && NoiseOk() && LogOk()
      requires segStart < k == segStart + |h.gr| == segStart + |h.mag| && Recorded(k) && t == TimeOf(c, k - 1)
      requires Now() == b.(sl := D.Follow(b.sl, m * m, c.nSta, c.nLta), secE := b.secE + m * m, secN := b.secN + 1)
      modifies `secE, `secN, `secHist, `stillFrom, `quietG, `noise, `noiseI, `sl, `state, `handledAt, `log, `lastStat,
               `lastState
      ensures NoiseOk() && LogOk() && old(log) <= log && secN == 0
      ensures SecondClosed(b, state, sl, m, t, rate) && (state == Triggered <==> old(state) == Triggered)
    {
      hide *;
      DetectorNeeds();
      NowIs();
      OnSecond(t, rate);
      ClosedIs(b, m, t, rate);
    }

    lemma NowIs()
      ensures Now() == Moment(state, handledAt, |noise|, quietG, sl, secHist, stillFrom, secE, secN)
    {
    }

    lemma ClosedIs(b: Moment, m: real, t: real, rate: real)
      requires c.fs > 0.0 && c.nSta != 0.0 && c.nLta != 0.0 && segStart < k == segStart + |h.gr| == segStart + |h.mag|
      requires var rms := c.gates.sqrt((b.secE + m * m) / (b.secN + 1) as real);
               secHist == LastSeconds(c, b.secHist + [Second(h.gr[k - 1 - segStart], rms, b.state == Triggered)])
      requires stillFrom == StillSince(b.stillFrom, t)
      requires state == (if b.state == Triggered then Triggered
                         else if Listens(b.state, b.handledAt, b.levels, b.quietG, t, rate) then Quiet
                         else if b.state == Quiet then Disturbed else b.state)
      requires if b.state != Quiet && state == Quiet then Reseeded() else sl == D.Follow(b.sl, m * m, c.nSta, c.nLta)
      ensures SecondClosed(b, state, sl, m, t, rate)
    {
      hide Listens, StillSince, SeedFrom, Background, LastSeconds, D.Follow;
    }

    lemma FiresIs(s: D.Averages, minAmp: real)
      requires c.triggerRatio > 0.0 && minAmp > 0.0
      ensures Fires(c, s, minAmp) <==> TriggerRatio(c, s, minAmp) >= c.triggerRatio && c.gates.sqrt(s.sta) >= minAmp
    {
      hide TriggerRatio;
    }

    lemma TriggerParts(next: nat)
      requires c.fs > 0.0 && TriggerOk(next)
      ensures state == Triggered <==> tr.Some?
      ensures tr.Some? ==> started && Whole(h) && h.segStart == segStart && TriggerTimes(c, h, seqNo, tr.value, next)
    {
    }

    lemma TriggerJoined(next: nat)
      requires c.fs > 0.0 && (state == Triggered <==> tr.Some?)
      requires tr.Some? ==> started && Whole(h) && h.segStart == segStart && TriggerTimes(c, h, seqNo, tr.value, next)
      ensures TriggerOk(next)
    {
    }

    /** The resampled samples one by one, continuing (or starting) the segment at index k0. */
    method Replay(outs: seq<R.Sample>, rate: real, minAmp: real, ghost k0: nat, ghost em: seq<R.Sample>)
      requires Wired() && NoiseOk() && TriggerOk(k) && LogOk() && minAmp > 0.0
      requires if started then Recorded(k) && Filtered(c, h, bp, gr) && k == k0 && h.raw == ValuesOf(em) else em == []
      requires forall i :: 0 <= i < |outs| ==> outs[i].t == TimeOf(c, k0 + i)
      modifies this, raw.b, bpr.b, grv.b, mag.b
      ensures Wired() && NoiseOk() && TriggerOk(k) && LogOk() && old(log) <= log
      ensures started == (old(started) || outs != [])
      ensures started ==> Recorded(k) && Filtered(c, h, bp, gr) && k == k0 + |outs| && h.raw == ValuesOf(em + outs)
    {
      hide PendingAfter, PickCount, TriggerTimes, Designs, Recorded, NoiseOk, R.Faithful, R.GoodDesign, Filtered,
           ValuesOf, TriggerOk, LogOk, Wired;
      assert em + outs[..0] == em;
      NoValues();
      WiredParts();
      for i := 0 to |outs|
        invariant Wired() && NoiseOk() && TriggerOk(k) && LogOk() && old(log) <= log
                  && started == (old(started) || i > 0)
        invariant started ==> Recorded(k) && Filtered(c, h, bp, gr) && k == k0 + i && h.raw == ValuesOf(em + outs[..i])
      {
        ValuesMore(em + outs[..i], outs[i]);
        assert em + outs[..i + 1] == em + outs[..i] + [outs[i]];
        OnSample(outs[i], rate, minAmp, k0 + i);
      }
      assert outs[..|outs|] == outs;
    }

    lemma WiredParts()
      requires Wired()
      ensures ValidConfig(c) && Sized() && c.fs > 0.0 && res.Valid() && res.fsOut == c.fs
      ensures res.Setting() == R.Setup(c.fs, c.gapMax, c.antiAlias)
    {
    }

    lemma WiredWhole()
      requires ValidConfig(c) && Sized() && res.Valid() && res.Setting() == R.Setup(c.fs, c.gapMax, c.antiAlias)
      ensures Wired()
    {
    }

    /** The invariant taken apart. */
    lemma Parts()
      requires Valid()
      ensures Wired() && NoiseOk() && c.fs > 0.0 && TriggerOk(k) && LogOk()
      ensures res.started ==>
                res.k >= 0
                && if started then h.raw == ValuesOf(res.emitted) && res.emitted != [] else res.emitted == []
      ensures started ==> Recorded(k) && Filtered(c, h, bp, gr) && res.started && k == res.k
    {
    }

    /** The invariant put together. */
    lemma Joined()
      requires Wired() && NoiseOk() && c.fs > 0.0 && TriggerOk(k) && LogOk()
      requires res.started ==>
                res.k >= 0
                && if started then h.raw == ValuesOf(res.emitted) && res.emitted != [] else res.emitted == []
      requires started ==> Recorded(k) && Filtered(c, h, bp, gr) && res.started && k == res.k
      ensures Valid()
    {
    }

    /** One raw input sample through the resampler, and the gap it may close. */
    method Uniform(s: R.Sample) returns (outs: seq<R.Sample>, rate: real, ghost k0: nat, ghost em: seq<R.Sample>)
      requires Valid() && s.t >= 0.0
      modifies this, res, res.dts
      ensures Wired() && NoiseOk() && c.fs > 0.0 && TriggerOk(k) && LogOk() && old(log) <= log
      ensures if started then Recorded(k) && Filtered(c, h, bp, gr) && k == k0 && h.raw == ValuesOf(em) && em != []
              else em == []
      ensures forall i :: 0 <= i < |outs| ==> outs[i].t == TimeOf(c, k0 + i)
      ensures res.started && res.emitted == em + outs && res.k == k0 + |outs| && res.heard == old(res.heard) + [s]
    {
      hide *;
      Parts();
      WiredParts();
      NonNegativeIndex(c.fs, s.t);
      ghost var first := res.k;
      em := if res.started then res.emitted else [];
      var gap;
      outs, gap := res.Push(s);
      WiredWhole();
      rate := res.ReportedRate();
      if gap.Some? {
        em := [];
        OnGap(gap.value.0);
      }
      GridTimes(outs, first);
      k0 := if outs == [] then res.k else first;
      assert res.emitted == em + outs;
    }

    /** One raw input sample, through the resampler: every emitted sample reaches the history, and nothing else does. */
    method Push(s: R.Sample, minAmp: real)
      requires Valid() && s.t >= 0.0 && minAmp > 0.0
      modifies this, res, res.dts, raw.b, bpr.b, grv.b, mag.b
      ensures Valid() && old(log) <= log && res.started
      ensures res.heard == old(res.heard) + [s]
    {
      hide *;
      var outs, rate, k0, em := Uniform(s);
      Replay(outs, rate, minAmp, k0, em);
      Joined();
    }

    /**
     Whatever has been pushed: every pick was followed by one end, its own, before the next pick. A pick still without
     its end belongs to the open trigger, which is no older than the longest one with its settling.
     */
    lemma PicksAnswered()
      requires Valid()
      ensures c.fs > 0.0 && Promised(c, log)
      ensures forall i :: 0 <= i < |log| && Waits(log, i) ==>
                && tr.Some? && tr.value.pick.Some? && log[i] == PickOut(tr.value.pick.value)
                && log[i].pick.trig < k <= log[i].pick.trig + Longest(c) + c.endSettle
    {
      hide *;
      Parts();
      TriggerParts(k);
      if tr.Some? { WaitBound(c, h, seqNo, tr.value, k); }
      LogParts();
      PromiseExactly(c, log);
      WaitingIsOpen(c, log);
    }

    lemma GridTimes(outs: seq<R.Sample>, k0: int)
      requires c.fs > 0.0 && forall i :: 0 <= i < |outs| ==> outs[i].t == R.GridTime(c.fs, k0 + i)
      ensures forall i :: 0 <= i < |outs| ==> outs[i].t == TimeOf(c, k0 + i)
    {
    }

    lemma NoValues()
      ensures ValuesOf([]) == []
    {
    }

    lemma SegmentHeld()
      requires Sized() && Recorded(k)
      ensures segStart <= k == segStart + |h.raw| && raw.b.Length == c.bufferLen > 0 && raw.Mirrors(h.raw, segStart)
    {
    }

    /** The first index of the segment from this time on that the ring still holds. */
    function ClipFrom(from: real): int
      reads `k, `segStart
    {
      MaxInt(MaxInt(Ceil(R.GridPos(c.fs, from)), k - c.bufferLen), segStart)
    }

    /** The last index of the segment up to this time. */
    function ClipTo(to: real): int
      reads `k
    {
      if R.GridPos(c.fs, to).Floor > k - 1 then k - 1 else R.GridPos(c.fs, to).Floor
    }

    lemma ClipIs(from: real, to: real)
      ensures var a := Ceil(R.GridPos(c.fs, from));
              var held := if a < k - c.bufferLen then k - c.bufferLen else a;
              ClipFrom(from) == if held < segStart then segStart else held
      ensures var b := R.GridPos(c.fs, to).Floor; ClipTo(to) == if b > k - 1 then k - 1 else b
    {
      hide R.GridPos;
    }

    /**
     The buffered raw acceleration between two times: exactly the history of the current segment in the
     requested window, clipped to what the ring still holds.
     */
    method Snippet(from: real, to: real) returns (t0: real, xyz: seq<Vec3>)
      requires Valid()
      ensures !started ==> t0 == 0.0 && xyz == []
      ensures started ==>
                var a, b := ClipFrom(from), ClipTo(to);
                if b < a then t0 == 0.0 && xyz == []
                else t0 == TimeOf(c, a) && xyz == h.raw[a - segStart..b + 1 - segStart]
    {
      hide *;
      Parts();
      WiredParts();
      if !started { return 0.0, []; }
      SegmentHeld();
      ClipIs(from, to);
      var a, b := Ceil(R.GridPos(c.fs, from)), R.GridPos(c.fs, to).Floor;
      var lo := k - c.bufferLen;
      if a < lo { a := lo; }
      if a < segStart { a := segStart; }
      if b > k - 1 { b := k - 1; }
      if b < a { return 0.0, []; }
      var w := raw.Span(a, b + 1, h.raw, segStart);
      return TimeOf(c, a), w;
    }
  }

  // ---------------------------------------------------------------------
  // Turned phones
  // ---------------------------------------------------------------------

  lemma {:induction false} TurnedValues(m: F.Rotation, s: seq<R.Sample>)
    ensures ValuesOf(R.TurnSamples(m, s)) == F.TurnAll(m, ValuesOf(s))
  {
    hide F.Turn;
    if s != [] {
      var n := |s| - 1;
      TurnedValues(m, s[..n]);
      assert R.TurnSamples(m, s)[..n] == R.TurnSamples(m, s[..n]);
    }
  }

  /** What a processor's segment owes to its resampler. */
  lemma SegmentSource(p: Processor)
    requires p.Valid()
    ensures R.GoodDesign(p.c.antiAlias) && p.c.fs > 0.0
    ensures var heard := R.HeardAll(R.Setup(p.c.fs, p.c.gapMax, p.c.antiAlias), p.res.heard);
            && p.started == (heard.memory.started && heard.emitted != [])
            && (p.started ==>
                  p.k == heard.memory.k && p.h.raw == ValuesOf(heard.emitted) && Filtered(p.c, p.h, p.bp, p.gr)
                  && p.h.segStart == p.segStart == p.k - |p.h.raw| && p.k == p.segStart + |p.h.mag| && Whole(p.h))
  {
    hide *;
    p.Parts();
    p.WiredParts();
    p.res.Parts();
    if p.started {
      p.SegmentHeld();
      p.RecordedParts(p.k);
    }
  }

  /** What a trigger is judged on in a phone that lies differently. */
  lemma TurnedEvidence(c: Config, m: F.Rotation, h: History, trigK: nat, k: nat, noise: seq<real>, staltaMax: real,
                       lastFF: real)
    requires c.fs > 0.0 && Whole(h)
    requires h.segStart <= trigK <= k < h.segStart + |h.mag| && trigK + c.halfSecond <= k + 1
    ensures Whole(TurnHistory(m, h))
    ensures EvidenceOf(c, TurnHistory(m, h), trigK, k, noise, staltaMax, lastFF)
            == TurnEvidence(m, EvidenceOf(c, h, trigK, k, noise, staltaMax, lastFF))
  {
    hide F.Turn, EvidenceOf, EvidenceAt, TriggerOnset, HalfBefore;
    EvidenceParts(c, h, trigK, k, noise, staltaMax, lastFF);
    EvidenceParts(c, TurnHistory(m, h), trigK, k, noise, staltaMax, lastFF);
    SameOnset(c, m, h, trigK);
    var onset := TriggerOnset(c, h, trigK);
    TurnedEvidenceAt(c, m, h, onset, HalfBefore(c, h.segStart, onset), k, noise, staltaMax, lastFF);
  }

  lemma SameOnset(c: Config, m: F.Rotation, h: History, trigK: nat)
    requires Whole(h) && h.segStart <= trigK && trigK + c.halfSecond <= h.segStart + |h.mag|
    ensures TriggerOnset(c, TurnHistory(m, h), trigK) == TriggerOnset(c, h, trigK)
  {
    hide D.AicIndex, F.TurnAll;
  }

  lemma TurnedEvidenceAt(c: Config, m: F.Rotation, h: History, onset: nat, g: nat, k: nat, noise: seq<real>,
                         staltaMax: real, lastFF: real)
    requires c.fs > 0.0 && Whole(h) && h.segStart <= g <= onset <= k < h.segStart + |h.mag|
    ensures Whole(TurnHistory(m, h))
    ensures EvidenceAt(c, TurnHistory(m, h), onset, g, k, noise, staltaMax, lastFF)
            == TurnEvidence(m, EvidenceAt(c, h, onset, g, k, noise, staltaMax, lastFF))
  {
    hide F.Turn, F.TurnAll, QuietWindow, TimeOf;
    var s := h.segStart;
    SameQuiet(c, m, h, onset);
    TurnedSlice(m, h.bp, onset - s, k + 1 - s);
    TurnedSlice(m, h.gr, g - s, k + 1 - s);
  }

  lemma SameQuiet(c: Config, m: F.Rotation, h: History, onset: nat)
    requires h.segStart <= onset <= h.segStart + |h.mag|
    ensures QuietWindow(c, TurnHistory(m, h), onset) == QuietWindow(c, h, onset)
  {
    hide F.TurnAll;
  }

  lemma TurnedSlice(m: F.Rotation, s: seq<Vec3>, a: nat, b: nat)
    requires a < b <= |s|
    ensures F.TurnAll(m, s)[a..b] == F.TurnAll(m, s[a..b])
    ensures F.TurnAll(m, s)[a] == F.Turn(m, s[a]) && F.TurnAll(m, s)[b - 1] == F.Turn(m, s[b - 1])
  {
    hide F.Turn;
  }

  /**
   Wherever the phone lies, a trigger judged at the same sample gets the same pick with turned evidence. Only its class
   can differ, and only where the tonality gate takes a seismic motion for a tonal one.
   */
  lemma TurnedPick(c: Config, m: F.Rotation, h: History, trigK: nat, k: nat, noise: seq<real>, staltaMax: real,
                   lastFF: real, seqNo: nat)
    requires c.fs > 0.0 && Whole(h) && TurnFree(c.gates, m)
    requires h.segStart <= trigK <= k < h.segStart + |h.mag| && trigK + c.halfSecond <= k + 1
    ensures Whole(TurnHistory(m, h))
    ensures var p := PickOf(c, h, trigK, k, noise, staltaMax, lastFF, seqNo);
            var q := PickOf(c, TurnHistory(m, h), trigK, k, noise, staltaMax, lastFF, seqNo);
            && q == p.(cls := q.cls, accepted := q.cls == Seismic, evidence := TurnEvidence(m, p.evidence))
            && (c.gates.tonalMaxFlatness <= 0.0 ==> q.cls == p.cls)
            && (q.cls != p.cls ==> {q.cls, p.cls} == {Tonal, Seismic})
  {
    TurnedEvidence(c, m, h, trigK, k, noise, staltaMax, lastFF);
    hide EvidenceOf, TurnHistory, ClassOf, F.TurnAll, F.Turn;
    TurnedClass(c.gates, c.fs, m, EvidenceOf(c, h, trigK, k, noise, staltaMax, lastFF));
  }

  /**
   Orientation does not matter, end to end: of two phones that have been pushed the same samples but for a constant
   rotation, both have a segment or neither has, and then it covers the same indices, the filtered histories are turned
   ones, and the magnitudes are the same, whatever gaps, dropped samples and anti-aliasing there were.
   */
  lemma TurnedPhones(m: F.Rotation, p: Processor, q: Processor)
    requires F.Orthogonal(m) && p.Valid() && q.Valid() && q.c == p.c
    requires q.res.heard == R.TurnSamples(m, p.res.heard)
    ensures q.started == p.started
    ensures p.started ==> q.k == p.k && q.segStart == p.segStart && q.h == TurnHistory(m, p.h) && q.h.mag == p.h.mag
  {
    hide *;
    SegmentSource(p);
    SegmentSource(q);
    var setup := R.Setup(p.c.fs, p.c.gapMax, p.c.antiAlias);
    R.TurnedStream(m, setup, p.res.heard);
    var heard := R.HeardAll(setup, p.res.heard);
    R.TurnMemoryIs(setup, m, heard.memory);
    TurnedValues(m, heard.emitted);
    if p.started {
      TurnedMagnitudes(p.c, m, p.h, p.bp, p.gr, q.h, q.bp, q.gr);
      TurnedKeeps(m, p.h);
    }
  }

  lemma TurnedKeeps(m: F.Rotation, h: History)
    ensures TurnHistory(m, h).mag == h.mag && TurnHistory(m, h).segStart == h.segStart
  {
  }
}
