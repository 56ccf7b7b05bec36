/**
 Evidence levels: the criteria of each level, the hold timers, and the record of every decision.
 An event's level never falls, and each rise is backed by an unbroken streak of passing evaluations.
 */
module Levels {

  datatype Level = Unrated | Candidate | Corroborated | Confirmed

  function Rank(l: Level): nat {
    match l
    case Unrated => 0
    case Candidate => 1
    case Corroborated => 2
    case Confirmed => 3
  }

  const LEVEL_ORDER := [Candidate, Corroborated, Confirmed]

  datatype Criteria = Criteria(minUnits: int, maxLog10PAdj: real, minFootprint: real, minSources: int,
                               minApertureKM: real, minEstablished: int, minEstablishedFrac: real, maxRmsSec: real,
                               minConsistency: real, holdSec: real, minSweepVel: real, maxContradiction: real)

  datatype Metrics = Metrics(inlierUnits: nat, outlierUnits: nat, consistency: real, footprintFraction: real,
                             footprintKM: real, sources: nat, established: nat, establishedFrac: real, log10PAdj: real,
                             rmsSec: real, apertureKM: real, sweepVel: real, sweepR2: real, contradictionFrac: real)

  /** The criteria of the three levels, and the plane-wave fit quality above which a slow sweep counts. */
  datatype Rules = Rules(candidate: Criteria, corroborated: Criteria, confirmed: Criteria, sweepR2: real)

  function CriteriaOf(r: Rules, l: Level): Criteria {
    match l
    case Confirmed => r.confirmed
    case Corroborated => r.corroborated
    case _ => r.candidate
  }

  datatype Op = AtLeast | AtMost

  datatype Check = Check(name: string, value: real, op: Op, threshold: real, pass: bool)

  function Checked(name: string, v: real, op: Op, threshold: real): Check {
    Check(name, v, op, threshold, if op == AtLeast then v >= threshold else v <= threshold)
  }

  /** The sweep velocity that counts: only a well-fitted plane wave is held against an event. */
  function SweepVelocity(r: Rules, m: Metrics): real { if m.sweepR2 >= r.sweepR2 then m.sweepVel else 99.0 }

  /** A criterion that may be switched off. */
  function When(on: bool, c: Check): seq<Check> { if on then [c] else [] }

  /** The optional criteria, in the order they are listed. */
  function Optional(r: Rules, c: Criteria, m: Metrics): seq<seq<Check>> {
    [When(c.minFootprint > 0.0, Checked("footprint fraction", m.footprintFraction, AtLeast, c.minFootprint)),
     When(c.minSources > 0, Checked("distinct network sources", m.sources as real, AtLeast, c.minSources as real)),
     When(c.minApertureKM > 0.0, Checked("aperture km", m.apertureKM, AtLeast, c.minApertureKM)),
     When(c.minEstablished > 0,
          Checked("established devices", m.established as real, AtLeast, c.minEstablished as real)),
     When(c.minEstablishedFrac > 0.0,
          Checked("established fraction", m.establishedFrac, AtLeast, c.minEstablishedFrac)),
     When(c.maxRmsSec > 0.0, Checked("residual RMS s", m.rmsSec, AtMost, c.maxRmsSec)),
     When(c.minConsistency > 0.0, Checked("consistency", m.consistency, AtLeast, c.minConsistency)),
     When(c.maxContradiction > 0.0,
          Checked("amplitude contradictions", m.contradictionFrac, AtMost, c.maxContradiction)),
     When(c.minSweepVel > 0.0,
          Checked("sweep apparent velocity km/s", SweepVelocity(r, m), AtLeast, c.minSweepVel))]
  }

  function Concat(ss: seq<seq<Check>>): seq<Check> {
    if ss == [] then [] else Concat(ss[..|ss| - 1]) + ss[|ss| - 1]
  }

  function Checks(r: Rules, c: Criteria, m: Metrics): seq<Check> {
    [Checked("independent units", m.inlierUnits as real, AtLeast, c.minUnits as real),
     Checked("log10 adjusted p-value", m.log10PAdj, AtMost, c.maxLog10PAdj)]
    + Concat(Optional(r, c, m))
  }

  predicate AllPass(cs: seq<Check>) { forall c :: c in cs ==> c.pass }

  /** What the criteria demand of the metrics; a threshold of zero or less switches its criterion off. */
  predicate Meets(r: Rules, c: Criteria, m: Metrics) {
    && m.inlierUnits >= c.minUnits
    && m.log10PAdj <= c.maxLog10PAdj
    && (c.minFootprint > 0.0 ==> m.footprintFraction >= c.minFootprint)
    && (c.minSources > 0 ==> m.sources >= c.minSources)
    && (c.minApertureKM > 0.0 ==> m.apertureKM >= c.minApertureKM)
    && (c.minEstablished > 0 ==> m.established >= c.minEstablished)
    && (c.minEstablishedFrac > 0.0 ==> m.establishedFrac >= c.minEstablishedFrac)
    && (c.maxRmsSec > 0.0 ==> m.rmsSec <= c.maxRmsSec)
    && (c.minConsistency > 0.0 ==> m.consistency >= c.minConsistency)
    && (c.maxContradiction > 0.0 ==> m.contradictionFrac <= c.maxContradiction)
    && (c.minSweepVel > 0.0 ==> (m.sweepR2 >= r.sweepR2 && m.sweepVel >= c.minSweepVel)
                                || (m.sweepR2 < r.sweepR2 && 99.0 >= c.minSweepVel))
  }

  lemma PassConcat(a: seq<Check>, b: seq<Check>)
    ensures AllPass(a + b) <==> AllPass(a) && AllPass(b)
  {
    forall c | c in a ensures c in a + b {}
    forall c | c in b ensures c in a + b {}
  }

  /** A concatenation passes when every part does. */
  lemma {:induction false} PassParts(ss: seq<seq<Check>>)
    ensures AllPass(Concat(ss)) <==> forall i :: 0 <= i < |ss| ==> AllPass(ss[i])
  {
    if ss != [] {
      var n := |ss| - 1;
      PassParts(ss[..n]);
      PassConcat(Concat(ss[..n]), ss[n]);
      assert forall i :: 0 <= i < n ==> ss[..n][i] == ss[i];
      hide AllPass;
    }
  }

  lemma PassWhen(on: bool, c: Check)
    ensures AllPass(When(on, c)) <==> (on ==> c.pass)
  {
    if on { assert c in When(on, c); }
  }

  /** The list of checks passes exactly when the metrics meet the criteria. */
  lemma ChecksDecide(r: Rules, c: Criteria, m: Metrics)
    ensures AllPass(Checks(r, c, m)) <==> Meets(r, c, m)
  {
    var u := Checked("independent units", m.inlierUnits as real, AtLeast, c.minUnits as real);
    var p := Checked("log10 adjusted p-value", m.log10PAdj, AtMost, c.maxLog10PAdj);
    PassPair(u, p);
    PassConcat([u, p], Concat(Optional(r, c, m)));
    PassParts(Optional(r, c, m));
    OptionalDecide(r, c, m);
    hide AllPass, Optional, Concat;
  }

  /** The optional criteria one by one. */
  lemma OptionalDecide(r: Rules, c: Criteria, m: Metrics)
    ensures var o := Optional(r, c, m);
            |o| == 9
            && (AllPass(o[0]) <==> (c.minFootprint > 0.0 ==> m.footprintFraction >= c.minFootprint))
            && (AllPass(o[1]) <==> (c.minSources > 0 ==> m.sources >= c.minSources))
            && (AllPass(o[2]) <==> (c.minApertureKM > 0.0 ==> m.apertureKM >= c.minApertureKM))
            && (AllPass(o[3]) <==> (c.minEstablished > 0 ==> m.established >= c.minEstablished))
            && (AllPass(o[4]) <==> (c.minEstablishedFrac > 0.0 ==> m.establishedFrac >= c.minEstablishedFrac))
            && (AllPass(o[5]) <==> (c.maxRmsSec > 0.0 ==> m.rmsSec <= c.maxRmsSec))
            && (AllPass(o[6]) <==> (c.minConsistency > 0.0 ==> m.consistency >= c.minConsistency))
            && (AllPass(o[7]) <==> (c.maxContradiction > 0.0 ==> m.contradictionFrac <= c.maxContradiction))
            && (AllPass(o[8]) <==> (c.minSweepVel > 0.0 ==> SweepVelocity(r, m) >= c.minSweepVel))
  {
    forall on: bool, k: Check ensures AllPass(When(on, k)) <==> (on ==> k.pass) { PassWhen(on, k); }
    hide AllPass, When;
  }

  lemma PassPair(u: Check, p: Check)
    ensures AllPass([u, p]) <==> u.pass && p.pass
  {
    assert u in [u, p] && p in [u, p];
  }

  predicate Passes(r: Rules, l: Level, m: Metrics) { AllPass(Checks(r, CriteriaOf(r, l), m)) }

  // ---------------------------------------------------------------------
  // Streaks
  // ---------------------------------------------------------------------

  /** One evaluation of an event: when, and on what evidence. */
  datatype Eval = Eval(now: real, m: Metrics)

  /** Where the current run of evaluations passing level l began; the length if the last one failed. */
  function StreakFrom(r: Rules, evals: seq<Eval>, l: Level): (i: nat)
    ensures i <= |evals|
  {
    if evals == [] || !Passes(r, l, evals[|evals| - 1].m) then |evals|
    else StreakFrom(r, evals[..|evals| - 1], l)
  }

  /** The streak is unbroken, and no longer streak ends at the same evaluation. */
  lemma {:induction false} StreakIsMaximal(r: Rules, evals: seq<Eval>, l: Level)
    ensures var from := StreakFrom(r, evals, l);
            (forall i :: from <= i < |evals| ==> Passes(r, l, evals[i].m))
            && (from > 0 ==> !Passes(r, l, evals[from - 1].m))
  {
    hide Passes;
    if evals != [] && Passes(r, l, evals[|evals| - 1].m) {
      StreakIsMaximal(r, evals[..|evals| - 1], l);
    }
  }

  /** The level is due: its streak has lasted its hold time at the last evaluation. */
  predicate Due(r: Rules, evals: seq<Eval>, l: Level) {
    var from := StreakFrom(r, evals, l);
    from < |evals| && evals[|evals| - 1].now - evals[from].now >= CriteriaOf(r, l).holdSec
  }

  /** The hold timers after a run of evaluations. */
  ghost predicate TimersOf(r: Rules, evals: seq<Eval>, passSince: map<Level, real>) {
    forall l: Level :: l != Unrated ==>
      (l in passSince <==> StreakFrom(r, evals, l) < |evals|)
      && (l in passSince ==> passSince[l] == evals[StreakFrom(r, evals, l)].now)
  }

  /** The highest due level, in level order. */
  function HighestDue(r: Rules, evals: seq<Eval>): Level {
    if Due(r, evals, Confirmed) then Confirmed
    else if Due(r, evals, Corroborated) then Corroborated
    else if Due(r, evals, Candidate) then Candidate
    else Unrated
  }

  /** One more evaluation: the timer of a passing level keeps running or starts now. */
  lemma TimerStep(r: Rules, evals: seq<Eval>, passSince: map<Level, real>, e: Eval, l: Level)
    requires TimersOf(r, evals, passSince) && l != Unrated
    ensures var after, since := evals + [e], if l in passSince then passSince[l] else e.now;
            (StreakFrom(r, after, l) < |after| <==> Passes(r, l, e.m))
            && (Passes(r, l, e.m) ==> after[StreakFrom(r, after, l)].now == since)
            && (Due(r, after, l) <==> Passes(r, l, e.m) && e.now - since >= CriteriaOf(r, l).holdSec)
  {
    hide Passes;
    var after := evals + [e];
    assert after[..|after| - 1] == evals;
  }

  /** Since when a passing level has been passing. */
  function Since(passSince: map<Level, real>, l: Level, now: real): real {
    if l in passSince then passSince[l] else now
  }

  /** One level's turn: stop its timer, or keep or start it and see whether the level is due. */
  method Consider(r: Rules, passSince0: map<Level, real>, l: Level, m: Metrics, now: real)
    returns (due: bool, cs: seq<Check>, passSince: map<Level, real>)
    ensures passSince == if Passes(r, l, m) then passSince0[l := Since(passSince0, l, now)] else passSince0 - {l}
    ensures due <==> Passes(r, l, m) && now - Since(passSince0, l, now) >= CriteriaOf(r, l).holdSec
    ensures cs == Checks(r, CriteriaOf(r, l), m) && (due ==> AllPass(cs))
  {
    hide Checks;
    passSince := passSince0;
    var c := CriteriaOf(r, l);
    cs := Checks(r, c, m);
    if !AllPass(cs) {
      passSince := passSince - {l};
      return false, cs, passSince;
    }
    if l !in passSince {
      passSince := passSince[l := now];
    }
    due := now - passSince[l] >= c.holdSec;
  }

  /** The timers once the first i levels have had their turn. */
  ghost predicate Considered(r: Rules, passSince0: map<Level, real>, passSince: map<Level, real>, m: Metrics, now: real,
                             i: nat)
  {
    forall l: Level :: l != Unrated ==>
      if Rank(l) <= i
      then (l in passSince <==> Passes(r, l, m)) && (l in passSince ==> passSince[l] == Since(passSince0, l, now))
      else (l in passSince <==> l in passSince0) && (l in passSince ==> passSince[l] == passSince0[l])
  }

  lemma ConsiderOne(r: Rules, passSince0: map<Level, real>, passSince: map<Level, real>, m: Metrics, now: real, i: nat)
    requires i < 3 && Considered(r, passSince0, passSince, m, now, i)
    ensures var l := LEVEL_ORDER[i];
            Since(passSince, l, now) == Since(passSince0, l, now)
            && Considered(r, passSince0,
                          if Passes(r, l, m) then passSince[l := Since(passSince, l, now)]
                          else passSince - {l}, m, now, i + 1)
  {
    hide Passes;
    assert Rank(LEVEL_ORDER[i]) == i + 1;
    forall l: Level | Rank(l) == i + 1 ensures l == LEVEL_ORDER[i] {}
  }

  lemma TimersStep(r: Rules, evals: seq<Eval>, passSince0: map<Level, real>, e: Eval, passSince: map<Level, real>)
    requires TimersOf(r, evals, passSince0) && Considered(r, passSince0, passSince, e.m, e.now, 3)
    ensures TimersOf(r, evals + [e], passSince)
    ensures forall l: Level :: l != Unrated ==>
              (Due(r, evals + [e], l) <==>
               Passes(r, l, e.m) && e.now - Since(passSince0, l, e.now) >= CriteriaOf(r, l).holdSec)
  {
    forall l: Level | l != Unrated
      ensures (l in passSince <==> StreakFrom(r, evals + [e], l) < |evals + [e]|)
      ensures l in passSince ==> passSince[l] == (evals + [e])[StreakFrom(r, evals + [e], l)].now
      ensures Due(r, evals + [e], l) <==>
            Passes(r, l, e.m) && e.now - Since(passSince0, l, e.now) >= CriteriaOf(r, l).holdSec
    {
      TimerStep(r, evals, passSince0, e, l);
      assert Rank(l) <= 3;
    }
    hide StreakFrom, Passes;
  }

  /** Updates the hold timers with one evaluation and returns the highest level now due, with its checks. */
  method Grant(r: Rules, passSince0: map<Level, real>, m: Metrics, now: real, ghost evals: seq<Eval>)
    returns (got: Level, gotChecks: seq<Check>, passSince: map<Level, real>)
    requires TimersOf(r, evals, passSince0)
    ensures TimersOf(r, evals + [Eval(now, m)], passSince) && got == HighestDue(r, evals + [Eval(now, m)])
    ensures got != Unrated ==> gotChecks == Checks(r, CriteriaOf(r, got), m) && AllPass(gotChecks)
  {
    hide Checks, AllPass, Passes, CriteriaOf, Considered, Since, Due, StreakFrom;
    got, gotChecks, passSince := Unrated, [], passSince0;
    ghost var dues: set<Level> := {};
    assert Considered(r, passSince0, passSince, m, now, 0) by { ConsiderNone(r, passSince0, m, now); }
    for i := 0 to |LEVEL_ORDER|
      invariant Considered(r, passSince0, passSince, m, now, i)
      invariant forall j :: 0 <= j < i ==> var l := LEVEL_ORDER[j];
        (l in dues <==> Passes(r, l, m) && now - Since(passSince0, l, now) >= CriteriaOf(r, l).holdSec)
      invariant forall l :: l in dues ==> 0 < Rank(l) <= i
      invariant got == (if Confirmed in dues then Confirmed else if Corroborated in dues then Corroborated
                        else if Candidate in dues then Candidate else Unrated)
      invariant got != Unrated ==> gotChecks == Checks(r, CriteriaOf(r, got), m) && AllPass(gotChecks)
    {
      ConsiderOne(r, passSince0, passSince, m, now, i);
      var due, cs, ps := Consider(r, passSince, LEVEL_ORDER[i], m, now);
      passSince := ps;
      if due {
        got, gotChecks, dues := LEVEL_ORDER[i], cs, dues + {LEVEL_ORDER[i]};
      }
    }
    TimersStep(r, evals, passSince0, Eval(now, m), passSince);
    assert LEVEL_ORDER[0] == Candidate && LEVEL_ORDER[1] == Corroborated && LEVEL_ORDER[2] == Confirmed;
  }

  lemma ConsiderNone(r: Rules, passSince: map<Level, real>, m: Metrics, now: real)
    ensures Considered(r, passSince, passSince, m, now, 0)
  {
  }
}
