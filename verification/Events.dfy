/** Events and the decision log that justifies their level. */
module Events {
  import opened Levels
  import opened Votes

  datatype Decision = Decision(t: real, from: Level, to: Level, checks: seq<Check>)

  datatype Outcome = Pending | Dismissed | Closed

  datatype Event = Event(id: nat, level: Level, active: bool, outcome: Outcome, createdAt: real, updatedAt: real,
                         closedAt: real, levelTimes: map<Level, real>, originT: real, lat: real, lng: real,
                         metrics: Metrics, decisions: seq<Decision>, voteKeys: set<VoteKey>,
                         passSince: map<Level, real>, explained: bool, lastSupport: real)

  /** Decision i of an event is backed by evaluation j: its level was the highest due, and its checks are those of j. */
  ghost predicate BackedBy(r: Rules, evals: seq<Eval>, d: Decision, i: nat, j: nat) {
    && j < |evals| && evals[j].now == d.t
    && d.checks == Checks(r, CriteriaOf(r, d.to), evals[j].m) && AllPass(d.checks)
    && (HighestDue(r, evals[..j + 1]) == d.to
        || (i == 0 && j == 0 && d.to == Candidate && HighestDue(r, evals[..1]) == Unrated))
  }

  /** A chain of rises, each starting where the last one ended. */
  ghost predicate Chain(ds: seq<Decision>) {
    && (ds != [] ==> ds[0].from == Unrated)
    && forall i :: 0 <= i < |ds| ==> Rank(ds[i].from) < Rank(ds[i].to) && (i > 0 ==> ds[i].from == ds[i - 1].to)
  }

  /** The level times are those of the decisions. */
  ghost predicate TimesMatch(ds: seq<Decision>, times: map<Level, real>) {
    && (forall i :: 0 <= i < |ds| ==> ds[i].to in times && times[ds[i].to] == ds[i].t)
    && (forall l :: l in times ==> exists i :: 0 <= i < |ds| && ds[i].to == l)
  }

  function LevelAfter(ds: seq<Decision>): Level { if ds == [] then Unrated else ds[|ds| - 1].to }

  ghost predicate Backed(r: Rules, evals: seq<Eval>, d: Decision, i: nat) {
    exists j :: BackedBy(r, evals, d, i, j)
  }

  ghost predicate AllBacked(r: Rules, evals: seq<Eval>, ds: seq<Decision>) {
    forall i :: 0 <= i < |ds| ==> Backed(r, evals, ds[i], i)
  }

  /** No level above l was ever due. */
  ghost predicate NoneMissed(r: Rules, evals: seq<Eval>, l: Level) {
    forall j :: 0 < j <= |evals| ==> Rank(HighestDue(r, evals[..j])) <= Rank(l)
  }

  /** The whole record of an event agrees with the evaluations it has been through. */
  ghost predicate Justified(r: Rules, ev: Event, evals: seq<Eval>) {
    && TimersOf(r, evals, ev.passSince)
    && Chain(ev.decisions) && TimesMatch(ev.decisions, ev.levelTimes) && ev.level == LevelAfter(ev.decisions)
    && (evals != [] <==> ev.decisions != [])
    && AllBacked(r, evals, ev.decisions)
    && NoneMissed(r, evals, ev.level)
    && (forall l :: l in ev.levelTimes ==> ev.levelTimes[l] > 0.0)
  }

  /** In a chain, a level below the current one that was skipped has no decision. */
  lemma {:induction false} ChainRises(ds: seq<Decision>, i: nat)
    requires Chain(ds) && i < |ds|
    ensures Rank(ds[i].to) <= Rank(LevelAfter(ds)) && (Rank(ds[i].to) == Rank(LevelAfter(ds)) ==> i == |ds| - 1)
    decreases |ds| - i
  {
    if i < |ds| - 1 { ChainRises(ds, i + 1); }
  }

  lemma BackedLater(r: Rules, evals: seq<Eval>, e: Eval, d: Decision, i: nat, j: nat)
    requires BackedBy(r, evals, d, i, j)
    ensures BackedBy(r, evals + [e], d, i, j)
  {
    hide Checks, AllPass, HighestDue;
    assert (evals + [e])[..j + 1] == evals[..j + 1];
    if j == 0 { assert (evals + [e])[..1] == evals[..1]; }
  }

  lemma AllBackedLater(r: Rules, evals: seq<Eval>, e: Eval, ds: seq<Decision>)
    requires AllBacked(r, evals, ds)
    ensures AllBacked(r, evals + [e], ds)
  {
    hide BackedBy;
    forall i | 0 <= i < |ds| ensures Backed(r, evals + [e], ds[i], i) {
      assert Backed(r, evals, ds[i], i);
      var j :| BackedBy(r, evals, ds[i], i, j);
      BackedLater(r, evals, e, ds[i], i, j);
    }
  }

  lemma NoneMissedLater(r: Rules, evals: seq<Eval>, e: Eval, l: Level, l2: Level)
    requires NoneMissed(r, evals, l) && Rank(l) <= Rank(l2) && Rank(HighestDue(r, evals + [e])) <= Rank(l2)
    ensures NoneMissed(r, evals + [e], l2)
  {
    hide HighestDue;
    var after := evals + [e];
    forall j | 0 < j <= |after| ensures Rank(HighestDue(r, after[..j])) <= Rank(l2) {
      if j < |after| { assert after[..j] == evals[..j]; } else { assert after[..j] == after; }
    }
  }

  lemma DecisionAdded(r: Rules, ev: Event, evals: seq<Eval>, e: Eval, passSince: map<Level, real>, d: Decision)
    requires Justified(r, ev, evals) && TimersOf(r, evals + [e], passSince) && e.now > 0.0
    requires d.from == ev.level && Rank(ev.level) < Rank(d.to) && d.t == e.now
    requires BackedBy(r, evals + [e], d, |ev.decisions|, |evals|)
    requires Rank(HighestDue(r, evals + [e])) <= Rank(d.to)
    ensures Justified(r, ev.(passSince := passSince, level := d.to, decisions := ev.decisions + [d],
                             levelTimes := ev.levelTimes[d.to := d.t]), evals + [e])
  {
    hide TimersOf, HighestDue, BackedBy, NoneMissed, AllBacked, TimesMatch, Chain, LevelAfter, Rank;
    BackedMore(r, ev.decisions, evals, e, d);
    NoneMissedLater(r, evals, e, ev.level, d.to);
    ChainGrows(ev.decisions, d);
    TimesAdded(ev.decisions, ev.levelTimes, d);
    assert (evals + [e])[|evals|] == e && (ev.decisions + [d])[|ev.decisions|] == d;
  }

  lemma BackedMore(r: Rules, ds: seq<Decision>, evals: seq<Eval>, e: Eval, d: Decision)
    requires AllBacked(r, evals, ds) && BackedBy(r, evals + [e], d, |ds|, |evals|)
    ensures AllBacked(r, evals + [e], ds + [d])
  {
    hide BackedBy;
    AllBackedLater(r, evals, e, ds);
    var after, es := evals + [e], ds + [d];
    assert Backed(r, after, d, |ds|);
    forall i | 0 <= i < |es| ensures Backed(r, after, es[i], i) {
      if i < |ds| { assert Backed(r, after, ds[i], i); }
    }
  }

  lemma ChainGrows(ds: seq<Decision>, d: Decision)
    requires Chain(ds) && d.from == LevelAfter(ds) && Rank(d.from) < Rank(d.to)
    ensures Chain(ds + [d]) && LevelAfter(ds + [d]) == d.to
    ensures forall i :: 0 <= i < |ds| ==> ds[i].to != d.to
  {
    forall i | 0 <= i < |ds| ensures ds[i].to != d.to { ChainRises(ds, i); }
  }

  lemma TimesAdded(ds: seq<Decision>, times: map<Level, real>, d: Decision)
    requires TimesMatch(ds, times) && forall i :: 0 <= i < |ds| ==> ds[i].to != d.to
    ensures TimesMatch(ds + [d], times[d.to := d.t])
  {
    var es, ts := ds + [d], times[d.to := d.t];
    assert es[|ds|] == d;
    forall l: Level | l in ts ensures exists i :: 0 <= i < |es| && es[i].to == l {
      if l == d.to {
        assert es[|ds|].to == l;
      } else {
        var i :| 0 <= i < |ds| && ds[i].to == l;
        assert es[i].to == l;
      }
    }
  }

  lemma NoDecision(r: Rules, ev: Event, evals: seq<Eval>, e: Eval, passSince: map<Level, real>)
    requires Justified(r, ev, evals) && evals != [] && TimersOf(r, evals + [e], passSince)
    requires Rank(HighestDue(r, evals + [e])) <= Rank(ev.level)
    ensures Justified(r, ev.(passSince := passSince), evals + [e])
  {
    hide TimersOf, HighestDue, BackedBy, AllBacked, NoneMissed;
    AllBackedLater(r, evals, e, ev.decisions);
    NoneMissedLater(r, evals, e, ev.level, ev.level);
    assert (evals + [e])[|evals|] == e;
  }

  /**
   One evaluation of an event on its current metrics. The level never falls; a rise is logged with the checks that
   justify it, and is counted once for each of the two counted levels it reaches.
   */
  method Assess(r: Rules, ev: Event, now: real, ghost evals: seq<Eval>)
    returns (out: Event, corroborated: nat, confirmed: nat)
    requires now > 0.0 && Justified(r, ev, evals)
    requires evals == [] ==> Passes(r, Candidate, ev.metrics)
    ensures Justified(r, out, evals + [Eval(now, ev.metrics)])
    ensures out
            == ev.(level := out.level, decisions := out.decisions, levelTimes := out.levelTimes,
                   passSince := out.passSince)
    ensures Rank(ev.level) <= Rank(out.level) && out.level != Unrated && ev.decisions <= out.decisions
    ensures corroborated == (if Rank(ev.level) < 2 <= Rank(out.level) then 1 else 0)
    ensures confirmed == (if Rank(ev.level) < 3 <= Rank(out.level) then 1 else 0)
  {
    hide Checks, AllPass, HighestDue, TimersOf, BackedBy, Justified;
    ghost var e := Eval(now, ev.metrics);
    var lvl, checks, passSince := Grant(r, ev.passSince, ev.metrics, now, evals) by { TimersOfEvent(r, ev, evals); }
    ghost var due := lvl;
    LevelFacts(r, ev, evals);
    if ev.level == Unrated && lvl == Unrated {
      lvl, checks := Candidate, Checks(r, CriteriaOf(r, Candidate), ev.metrics);
    }
    corroborated, confirmed := 0, 0;
    if Rank(lvl) > Rank(ev.level) {
      var d := Decision(now, ev.level, lvl, checks);
      out := ev.(passSince := passSince, level := lvl, decisions := ev.decisions + [d],
                 levelTimes := ev.levelTimes[lvl := now]);
      if lvl == Corroborated {
        corroborated := 1;
      } else if lvl == Confirmed {
        confirmed := 1;
        if Corroborated !in out.levelTimes || out.levelTimes[Corroborated] == 0.0 {
          corroborated := 1;
        }
      }
      NewDecisionBacked(r, ev, evals, e, d, due);
      DecisionAdded(r, ev, evals, e, passSince, d);
    } else {
      out := ev.(passSince := passSince);
      NoDecision(r, ev, evals, e, passSince);
    }
  }

  lemma TimersOfEvent(r: Rules, ev: Event, evals: seq<Eval>)
    requires Justified(r, ev, evals)
    ensures TimersOf(r, evals, ev.passSince)
  {
  }

  /** What the record says about the current level. */
  lemma LevelFacts(r: Rules, ev: Event, evals: seq<Eval>)
    requires Justified(r, ev, evals)
    ensures ev.level == Unrated <==> evals == []
    ensures Rank(ev.level) < 2 ==> Corroborated !in ev.levelTimes
    ensures ev.level == Corroborated ==> Corroborated in ev.levelTimes && ev.levelTimes[Corroborated] > 0.0
  {
    hide TimersOf, HighestDue, BackedBy;
    var ds := ev.decisions;
    if Corroborated in ev.levelTimes {
      var i :| 0 <= i < |ds| && ds[i].to == Corroborated;
      ChainRises(ds, i);
    }
    if ds != [] { assert Rank(ds[|ds| - 1].from) < Rank(ds[|ds| - 1].to); }
  }

  lemma NewDecisionBacked(r: Rules, ev: Event, evals: seq<Eval>, e: Eval, d: Decision, due: Level)
    requires Justified(r, ev, evals) && due == HighestDue(r, evals + [e]) && d.t == e.now
    requires d.to == (if due == Unrated && evals == [] then Candidate else due)
    requires d.checks == Checks(r, CriteriaOf(r, d.to), e.m) && AllPass(d.checks)
    ensures BackedBy(r, evals + [e], d, |ev.decisions|, |evals|)
    ensures Rank(due) <= Rank(d.to)
  {
    hide Checks, AllPass, HighestDue, TimersOf;
    var after := evals + [e];
    assert after[..|evals| + 1] == after;
    if evals == [] { assert after[..1] == after; }
  }

  /**
   Every rise except the candidacy an event is created with was granted on an unbroken streak of passing
   evaluations at least as long as the level's hold time, ending at the decision.
   */
  lemma RiseHeld(r: Rules, ev: Event, evals: seq<Eval>, i: nat) returns (from: nat, j: nat)
    requires Justified(r, ev, evals) && i < |ev.decisions| && (i > 0 || ev.decisions[i].to != Candidate)
    ensures from <= j < |evals| && evals[j].now == ev.decisions[i].t
    ensures forall k :: from <= k <= j ==> Passes(r, ev.decisions[i].to, evals[k].m)
    ensures from > 0 ==> !Passes(r, ev.decisions[i].to, evals[from - 1].m)
    ensures evals[j].now - evals[from].now >= CriteriaOf(r, ev.decisions[i].to).holdSec
  {
    hide Checks, AllPass, Passes, TimersOf, StreakFrom, NoneMissed, TimesMatch, CriteriaOf;
    var d := ev.decisions[i];
    assert Backed(r, evals, d, i);
    j :| BackedBy(r, evals, d, i, j);
    var upTo := evals[..j + 1];
    assert Rank(d.from) < Rank(d.to);
    assert Due(r, upTo, d.to);
    from := StreakFrom(r, upTo, d.to);
    StreakIsMaximal(r, upTo, d.to);
    forall k | from <= k <= j ensures Passes(r, d.to, evals[k].m) { assert upTo[k] == evals[k]; }
  }

  /** The level is exactly the highest that was ever due, or the candidacy of creation. */
  lemma LevelIsHighestDue(r: Rules, ev: Event, evals: seq<Eval>)
    requires Justified(r, ev, evals) && evals != []
    ensures forall n :: 0 < n <= |evals| ==> Rank(HighestDue(r, evals[..n])) <= Rank(ev.level)
    ensures ev.level == Candidate || exists n :: 0 < n <= |evals| && HighestDue(r, evals[..n]) == ev.level
  {
    hide Checks, AllPass, HighestDue, TimersOf;
    var i := |ev.decisions| - 1;
    assert Backed(r, evals, ev.decisions[i], i);
    var j :| BackedBy(r, evals, ev.decisions[i], i, j);
    if ev.level != Candidate { assert HighestDue(r, evals[..j + 1]) == ev.level; }
  }
}
