/** The book of all events, open and closed: identities, justified records, and counters that equal the true counts. */
module Book {
  import opened Levels
  import opened Events
  import opened Votes
  import S = Sorting

  datatype Counters = Counters(rejected: nat, unknown: nat, stale: nat, duplicate: nat, accepted: nat, downgraded: nat,
                               votesFormed: nat, created: nat, corroborated: nat, confirmed: nat, dismissed: nat)

  const ZERO := Counters(0, 0, 0, 0, 0, 0, 0, 0, 0, 0, 0)

  /** Every event has its own number. */
  ghost predicate Numbered(evs: seq<Event>, last: nat) {
    && (forall i :: 0 <= i < |evs| ==> 0 < evs[i].id <= last)
    && forall i, j :: 0 <= i < j < |evs| ==> evs[i].id != evs[j].id
  }

  /** The event's record follows from the evaluations logged for it. */
  ghost predicate OnRecord(r: Rules, log: map<nat, seq<Eval>>, ev: Event) {
    ev.id in log && log[ev.id] != [] && Justified(r, ev, log[ev.id])
  }

  ghost predicate AllOnRecord(r: Rules, log: map<nat, seq<Eval>>, evs: seq<Event>) {
    forall i :: 0 <= i < |evs| ==> OnRecord(r, log, evs[i])
  }

  predicate Open(ev: Event) { ev.active && ev.outcome == Pending }

  /** A candidate is dismissed when it closes; anything higher is closed. */
  predicate Settled(ev: Event) { !ev.active && ev.outcome == if ev.level == Candidate then Dismissed else Closed }

  ghost predicate AllOpen(evs: seq<Event>) { forall i :: 0 <= i < |evs| ==> Open(evs[i]) }

  ghost predicate AllSettled(evs: seq<Event>) { forall i :: 0 <= i < |evs| ==> Settled(evs[i]) }

  /** How many events have reached rank r. */
  function Reached(evs: seq<Event>, r: nat): int { S.Sum(evs, (e: Event) => if Rank(e.level) >= r then 1 else 0) }

  function DismissedCount(evs: seq<Event>): int { S.Sum(evs, (e: Event) => if e.outcome == Dismissed then 1 else 0) }

  /** The counters are the true counts. */
  ghost predicate Tallied(open: seq<Event>, past: seq<Event>, k: Counters) {
    && k.created == |open| + |past|
    && k.corroborated == Reached(open + past, 2) && k.confirmed == Reached(open + past, 3)
    && k.dismissed == DismissedCount(past)
  }

  ghost predicate BookOk(r: Rules, open: seq<Event>, past: seq<Event>, log: map<nat, seq<Eval>>, last: nat,
                         k: Counters)
  {
    && Numbered(open + past, last) && AllOnRecord(r, log, open + past)
    && AllOpen(open) && AllSettled(past) && Tallied(open, past, k)
  }

  // ---------------------------------------------------------------------
  // Later versions of an event
  // ---------------------------------------------------------------------

  /** The same event later on: its level has not fallen, and no decision was revised. */
  ghost predicate Succeeds(a: Event, b: Event) {
    && a.id == b.id && a.createdAt == b.createdAt && Rank(a.level) <= Rank(b.level)
    && a.decisions <= b.decisions && (a.explained ==> b.explained)
  }

  ghost predicate HasSuccessor(a: Event, evs: seq<Event>) { exists j :: 0 <= j < |evs| && Succeeds(a, evs[j]) }

  /** No event disappears, and none is revised. */
  ghost predicate Grown(before: seq<Event>, after: seq<Event>) {
    forall i :: 0 <= i < |before| ==> HasSuccessor(before[i], after)
  }

  lemma SucceedsSelf(a: Event)
    ensures Succeeds(a, a)
  {
  }

  lemma GrownSelf(evs: seq<Event>)
    ensures Grown(evs, evs)
  {
    forall i | 0 <= i < |evs| ensures HasSuccessor(evs[i], evs) { SucceedsSelf(evs[i]); }
  }

  lemma GrownVia(a: seq<Event>, b: seq<Event>, c: seq<Event>)
    requires Grown(a, b) && Grown(b, c)
    ensures Grown(a, c)
  {
    forall i | 0 <= i < |a| ensures HasSuccessor(a[i], c) {
      assert HasSuccessor(a[i], b);
      var j :| 0 <= j < |b| && Succeeds(a[i], b[j]);
      assert HasSuccessor(b[j], c);
      var k :| 0 <= k < |c| && Succeeds(b[j], c[k]);
      assert Succeeds(a[i], c[k]);
    }
  }

  /** Replacing one event by a later version of itself. */
  lemma GrownReplace(evs: seq<Event>, i: nat, ev: Event)
    requires i < |evs| && Succeeds(evs[i], ev)
    ensures Grown(evs, evs[i := ev])
  {
    hide Succeeds;
    forall j | 0 <= j < |evs| ensures HasSuccessor(evs[j], evs[i := ev]) {
      SucceedsSelf(evs[j]);
      assert Succeeds(evs[j], evs[i := ev][j]);
    }
  }

  lemma GrownWithin(evs: seq<Event>, more: seq<Event>)
    requires forall e :: e in evs ==> e in more
    ensures Grown(evs, more)
  {
    hide Succeeds;
    forall j | 0 <= j < |evs| ensures HasSuccessor(evs[j], more) {
      assert evs[j] in more;
      var k :| 0 <= k < |more| && more[k] == evs[j];
      SucceedsSelf(evs[j]);
      assert Succeeds(evs[j], more[k]);
    }
  }

  // ---------------------------------------------------------------------
  // Counting
  // ---------------------------------------------------------------------

  function ReachesRank(e: Event, r: nat): nat { if Rank(e.level) >= r then 1 else 0 }

  lemma ReachedAppend(evs: seq<Event>, e: Event, r: nat)
    ensures Reached(evs + [e], r) == Reached(evs, r) + ReachesRank(e, r)
  {
    assert (evs + [e])[..|evs|] == evs;
  }

  lemma ReachedConcat(a: seq<Event>, b: seq<Event>, r: nat)
    ensures Reached(a + b, r) == Reached(a, r) + Reached(b, r)
  {
    S.SumConcat(a, b, (e: Event) => if Rank(e.level) >= r then 1 else 0);
  }

  /** Replacing one event changes the count by that event's difference. */
  lemma ReachedReplace(evs: seq<Event>, i: nat, ev: Event, r: nat)
    requires i < |evs|
    ensures Reached(evs[i := ev], r) == Reached(evs, r) - ReachesRank(evs[i], r) + ReachesRank(ev, r)
  {
    hide S.Sum, ReachesRank;
    var a, b := evs[..i], evs[i + 1..];
    assert evs == (a + [evs[i]]) + b && evs[i := ev] == (a + [ev]) + b;
    ReachedConcat(a + [evs[i]], b, r);
    ReachedConcat(a + [ev], b, r);
    ReachedAppend(a, evs[i], r);
    ReachedAppend(a, ev, r);
  }

  lemma DismissedAppend(evs: seq<Event>, e: Event)
    ensures DismissedCount(evs + [e]) == DismissedCount(evs) + if e.outcome == Dismissed then 1 else 0
  {
    assert (evs + [e])[..|evs|] == evs;
  }

  // ---------------------------------------------------------------------
  // The book's operations
  // ---------------------------------------------------------------------

  /** Justification reads only the level, the decisions, their times and the hold timers. */
  lemma SameRecord(r: Rules, a: Event, b: Event, evals: seq<Eval>)
    requires Justified(r, a, evals)
    requires b.level == a.level && b.decisions == a.decisions && b.levelTimes == a.levelTimes
             && b.passSince == a.passSince
    ensures Justified(r, b, evals)
  {
    hide TimersOf, Chain, TimesMatch, AllBacked, NoneMissed, LevelAfter;
  }

  /** A new event has been evaluated by nobody. */
  lemma FreshRecord(r: Rules, ev: Event)
    requires ev.level == Unrated && ev.decisions == [] && ev.levelTimes == map[] && ev.passSince == map[]
    ensures Justified(r, ev, [])
  {
  }

  lemma LogOthers(r: Rules, log: map<nat, seq<Eval>>, evs: seq<Event>, id: nat, evals: seq<Eval>)
    requires AllOnRecord(r, log, evs) && forall i :: 0 <= i < |evs| ==> evs[i].id != id
    ensures AllOnRecord(r, log[id := evals], evs)
  {
    hide Justified;
    forall i | 0 <= i < |evs| ensures OnRecord(r, log[id := evals], evs[i]) { assert OnRecord(r, log, evs[i]); }
  }

  /** Opens an event that has just had its first evaluation. */
  lemma BookOpened(r: Rules, open: seq<Event>, past: seq<Event>, log: map<nat, seq<Eval>>, last: nat, k: Counters,
                   ev: Event, evals: seq<Eval>, k2: Counters)
    requires BookOk(r, open, past, log, last, k)
    requires Open(ev) && ev.id == last + 1 && evals != [] && Justified(r, ev, evals)
    requires k2 == k.(created := k.created + 1, corroborated := k.corroborated + ReachesRank(ev, 2),
                      confirmed := k.confirmed + ReachesRank(ev, 3))
    ensures BookOk(r, open + [ev], past, log[ev.id := evals], last + 1, k2)
    ensures Grown(open + past, open + [ev] + past)
  {
    hide Justified, Open, Settled, Reached, ReachesRank, OnRecord;
    var more, log2 := open + [ev], log[ev.id := evals];
    LogOthers(r, log, open + past, ev.id, evals);
    assert OnRecord(r, log2, ev) by { OnRecordNow(r, log, ev, evals); }
    forall i | 0 <= i < |more + past| ensures OnRecord(r, log2, (more + past)[i]) {
      if i < |open| {
        assert (more + past)[i] == (open + past)[i];
      } else if i > |open| {
        assert (more + past)[i] == (open + past)[i - 1];
      }
    }
    NumberedMore(open, past, last, ev);
    forall e | e in open + past ensures e in more + past {}
    GrownWithin(open + past, more + past);
    ReachedOpened(open, past, ev, 2);
    ReachedOpened(open, past, ev, 3);
  }

  lemma OnRecordNow(r: Rules, log: map<nat, seq<Eval>>, ev: Event, evals: seq<Eval>)
    requires evals != [] && Justified(r, ev, evals)
    ensures OnRecord(r, log[ev.id := evals], ev)
  {
  }

  lemma NumberedMore(open: seq<Event>, past: seq<Event>, last: nat, ev: Event)
    requires Numbered(open + past, last) && ev.id == last + 1
    ensures Numbered(open + [ev] + past, last + 1)
  {
    var a, b := open + past, open + [ev] + past;
    assert b[|open|] == ev;
    forall i | 0 <= i < |b| && i != |open|
      ensures b[i] == a[if i < |open| then i else i - 1] && 0 < b[i].id <= last
    {}
  }

  lemma ReachedOpened(open: seq<Event>, past: seq<Event>, ev: Event, r: nat)
    ensures Reached(open + [ev] + past, r) == Reached(open + past, r) + ReachesRank(ev, r)
  {
    hide S.Sum, ReachesRank;
    ReachedConcat(open + [ev], past, r);
    ReachedConcat(open, past, r);
    ReachedAppend(open, ev, r);
  }

  /** Replaces an open event by a later version, whose evaluations may have grown. */
  lemma BookReplaced(r: Rules, open: seq<Event>, past: seq<Event>, log: map<nat, seq<Eval>>, last: nat, k: Counters,
                     i: nat, ev: Event, evals: seq<Eval>, k2: Counters)
    requires BookOk(r, open, past, log, last, k) && i < |open|
    requires Open(ev) && Succeeds(open[i], ev) && evals != [] && Justified(r, ev, evals)
    requires k2 == k.(corroborated := k2.corroborated, confirmed := k2.confirmed)
    requires k2.corroborated == k.corroborated - ReachesRank(open[i], 2) + ReachesRank(ev, 2)
    requires k2.confirmed == k.confirmed - ReachesRank(open[i], 3) + ReachesRank(ev, 3)
    ensures BookOk(r, open[i := ev], past, log[ev.id := evals], last, k2)
    ensures Grown(open + past, open[i := ev] + past)
  {
    hide Justified, Open, Settled, Reached, ReachesRank, OnRecord;
    var all := open + past;
    assert open[i := ev] + past == all[i := ev] && all[i] == open[i];
    GrownReplace(all, i, ev);
    hide Succeeds;
    ReachedReplace(all, i, ev, 2);
    ReachedReplace(all, i, ev, 3);
    SameNumber(open[i], ev);
    NumberedSame(all, last, i, ev);
    LogReplaced(r, log, all, last, i, ev, evals);
  }

  lemma SameNumber(a: Event, b: Event)
    requires Succeeds(a, b)
    ensures a.id == b.id
  {
  }

  lemma NumberedSame(all: seq<Event>, last: nat, i: nat, ev: Event)
    requires Numbered(all, last) && i < |all| && ev.id == all[i].id
    ensures Numbered(all[i := ev], last)
  {
    var t := all[i := ev];
    forall j | 0 <= j < |t| ensures t[j].id == all[j].id {}
  }

  lemma LogReplaced(r: Rules, log: map<nat, seq<Eval>>, all: seq<Event>, last: nat, i: nat, ev: Event, evals: seq<Eval>)
    requires AllOnRecord(r, log, all) && Numbered(all, last) && i < |all| && ev.id == all[i].id
    requires evals != [] && Justified(r, ev, evals)
    ensures AllOnRecord(r, log[ev.id := evals], all[i := ev])
  {
    hide Justified;
    var t := all[i := ev];
    forall j | 0 <= j < |t| ensures OnRecord(r, log[ev.id := evals], t[j]) {
      if j != i {
        assert OnRecord(r, log, all[j]);
        assert all[j].id != all[i].id;
      }
    }
  }

  /** The closed version of an event. */
  function CloseEvent(ev: Event, now: real): Event {
    ev.(active := false, closedAt := now, updatedAt := now,
        outcome := if ev.level == Candidate then Dismissed else Closed)
  }

  /** Moves one open event to the closed ones. */
  lemma BookClosed(r: Rules, a: seq<Event>, ev: Event, b: seq<Event>, past: seq<Event>, log: map<nat, seq<Eval>>,
                   last: nat, k: Counters, now: real, k2: Counters)
    requires BookOk(r, a + [ev] + b, past, log, last, k)
    requires k2 == k.(dismissed := k.dismissed + if ev.level == Candidate then 1 else 0)
    ensures BookOk(r, a + b, past + [CloseEvent(ev, now)], log, last, k2)
    ensures Grown(a + [ev] + b + past, a + b + (past + [CloseEvent(ev, now)]))
    ensures Open(ev)
  {
    hide Justified, Reached, ReachesRank, OnRecord;
    var ev2 := CloseEvent(ev, now);
    var open, all := a + [ev] + b, a + [ev] + b + past;
    var all2 := a + b + (past + [ev2]);
    assert open[|a|] == ev;
    ClosedOnRecord(r, log, a, ev, b, past, ev2);
    ClosedNumbered(a, ev, b, past, ev2, last);
    ClosedGrown(a, ev, b, past, ev2);
    ReachedClosed(a, ev, b, past, ev2, 2);
    ReachedClosed(a, ev, b, past, ev2, 3);
    DismissedAppend(past, ev2);
    hide S.Sum;
    assert AllOpen(a + b) by {
      forall i | 0 <= i < |a + b| ensures Open((a + b)[i]) { assert (a + b)[i] == open[if i < |a| then i else i + 1]; }
    }
  }

  lemma ClosedOnRecord(r: Rules, log: map<nat, seq<Eval>>, a: seq<Event>, ev: Event, b: seq<Event>, past: seq<Event>,
                       ev2: Event)
    requires AllOnRecord(r, log, a + [ev] + b + past)
    requires ev2
             == ev.(active := ev2.active, closedAt := ev2.closedAt, updatedAt := ev2.updatedAt, outcome := ev2.outcome)
    ensures AllOnRecord(r, log, a + b + (past + [ev2]))
  {
    hide Justified;
    var all, all2 := a + [ev] + b + past, a + b + (past + [ev2]);
    assert all[|a|] == ev;
    assert OnRecord(r, log, ev);
    SameRecord(r, ev, ev2, log[ev.id]);
    forall i | 0 <= i < |all2| ensures OnRecord(r, log, all2[i]) {
      if i < |all2| - 1 { assert all2[i] == all[if i < |a| then i else i + 1]; }
    }
  }

  lemma ClosedNumbered(a: seq<Event>, ev: Event, b: seq<Event>, past: seq<Event>, ev2: Event, last: nat)
    requires Numbered(a + [ev] + b + past, last) && ev2.id == ev.id
    ensures Numbered(a + b + (past + [ev2]), last)
  {
    var all, all2 := a + [ev] + b + past, a + b + (past + [ev2]);
    assert all[|a|] == ev;
    forall i | 0 <= i < |all2|
      ensures all2[i].id == all[if i == |all2| - 1 then |a| else if i < |a| then i else i + 1].id {}
  }

  lemma ClosedGrown(a: seq<Event>, ev: Event, b: seq<Event>, past: seq<Event>, ev2: Event)
    requires Succeeds(ev, ev2)
    ensures Grown(a + [ev] + b + past, a + b + (past + [ev2]))
  {
    hide Succeeds;
    var all, all2 := a + [ev] + b + past, a + b + (past + [ev2]);
    forall i | 0 <= i < |all| ensures HasSuccessor(all[i], all2) {
      SucceedsSelf(all[i]);
      if i == |a| {
        assert Succeeds(all[i], all2[|all2| - 1]);
      } else {
        var j := if i < |a| then i else i - 1;
        assert all2[j] == all[i];
        assert Succeeds(all[i], all2[j]);
      }
    }
  }

  lemma ReachedClosed(a: seq<Event>, ev: Event, b: seq<Event>, past: seq<Event>, ev2: Event, r: nat)
    requires ev2.level == ev.level
    ensures Reached(a + b + (past + [ev2]), r) == Reached(a + [ev] + b + past, r)
  {
    hide S.Sum;
    ReachedConcat(a + b, past + [ev2], r);
    ReachedConcat(a, b, r);
    ReachedAppend(past, ev2, r);
    ReachedConcat(a + [ev] + b, past, r);
    ReachedConcat(a + [ev], b, r);
    ReachedAppend(a, ev, r);
  }
}
