/** How a cluster updates the events: which event it belongs to, and what its evidence does to that event. */
module Judging {
  import opened Basics
  import opened Votes
  import opened Levels
  import opened Events
  import opened Book
  import A = Association
  import R = Registry

  /** The event part of the tuning; distances are given. */
  datatype Tuning = Tuning(levels: Rules, dist: (real, real, real, real) -> real, unitKM: real, mergeKM: real,
                           mergeSec: real, assocWindow: real, quietSec: real, minAgeSec: real)

  datatype Kind = CreatedEvent | RaisedLevel | UpdatedEvent | ClosedEvent

  datatype Update = Update(kind: Kind, event: Event)

  function KeysOf(vs: seq<Vote>): set<VoteKey> { set v | v in vs :: v.key }

  // ---------------------------------------------------------------------
  // Matching
  // ---------------------------------------------------------------------

  /** The first position satisfying p, or the length. */
  function First<A>(xs: seq<A>, p: A -> bool): (i: nat)
    ensures i <= |xs|
    ensures i < |xs| ==> p(xs[i])
    ensures forall k :: 0 <= k < i ==> !p(xs[k])
  {
    if xs == [] || p(xs[0]) then 0 else 1 + First(xs[1..], p)
  }

  predicate Shares(ev: Event, keys: set<VoteKey>) { ev.voteKeys * keys != {} }

  predicate Nearby(c: Tuning, ev: Event, lat: real, lng: real, originT: real) {
    c.dist(ev.lat, ev.lng, lat, lng) <= c.mergeKM && Abs(ev.originT - originT) <= c.mergeSec
  }

  /** The first open event sharing a vote; failing that the first one close in space and time. */
  function MatchOf(c: Tuning, evs: seq<Event>, keys: set<VoteKey>, lat: real, lng: real, originT: real): (i: nat)
    ensures i <= |evs|
  {
    var i := First(evs, (e: Event) => Shares(e, keys));
    if i < |evs| then i else First(evs, (e: Event) => Nearby(c, e, lat, lng, originT))
  }

  method Match(c: Tuning, evs: seq<Event>, vs: seq<Vote>, lat: real, lng: real, originT: real) returns (i: nat)
    ensures i == MatchOf(c, evs, KeysOf(vs), lat, lng, originT)
  {
    ghost var keys := KeysOf(vs);
    ghost var shared := First(evs, (e: Event) => Shares(e, keys));
    i := 0;
    while i < |evs|
      invariant i <= |evs| && forall k :: 0 <= k < i ==> !Shares(evs[k], keys)
    {
      var hit := AnyKey(evs[i], vs);
      if hit { break; }
      i := i + 1;
    }
    assert i == shared;
    if i < |evs| { return; }
    ghost var near := First(evs, (e: Event) => Nearby(c, e, lat, lng, originT));
    i := 0;
    while i < |evs| && !Nearby(c, evs[i], lat, lng, originT)
      invariant i <= |evs| && forall k :: 0 <= k < i ==> !Nearby(c, evs[k], lat, lng, originT)
    {
      i := i + 1;
    }
    assert i == near;
  }

  method AnyKey(ev: Event, vs: seq<Vote>) returns (hit: bool)
    ensures hit <==> Shares(ev, KeysOf(vs))
  {
    for i := 0 to |vs|
      invariant forall k :: 0 <= k < i ==> vs[k].key !in ev.voteKeys
    {
      if vs[i].key in ev.voteKeys {
        assert vs[i] in vs;
        assert vs[i].key in ev.voteKeys * KeysOf(vs);
        return true;
      }
    }
    forall k | k in KeysOf(vs) ensures k !in ev.voteKeys {
      var v :| v in vs && v.key == k;
    }
    return false;
  }

  /** How far an event reaches for fragments of itself. */
  function FragmentReach(c: Tuning, a: Event): real {
    var r := a.metrics.footprintKM + 2.0 * c.unitKM;
    if 2.0 * c.mergeKM >= r then 2.0 * c.mergeKM else r
  }

  /** A cluster this large at this place and time is a fragment of event a, not an earthquake of its own. */
  predicate Absorbs(c: Tuning, a: Event, units: nat, lat: real, lng: real, originT: real) {
    && !(Rank(a.level) < Rank(Corroborated) && a.metrics.inlierUnits < units)
    && c.dist(a.lat, a.lng, lat, lng) <= FragmentReach(c, a)
    && a.originT - c.mergeSec <= originT <= a.originT + c.assocWindow
  }

  function AbsorberOf(c: Tuning, evs: seq<Event>, units: nat, lat: real, lng: real, originT: real): (i: nat)
    ensures i <= |evs|
  {
    First(evs, (e: Event) => Absorbs(c, e, units, lat, lng, originT))
  }

  method Absorber(c: Tuning, evs: seq<Event>, units: nat, lat: real, lng: real, originT: real) returns (i: nat)
    ensures i == AbsorberOf(c, evs, units, lat, lng, originT)
  {
    ghost var which := First(evs, (e: Event) => Absorbs(c, e, units, lat, lng, originT));
    i := 0;
    while i < |evs| && !Absorbs(c, evs[i], units, lat, lng, originT)
      invariant i <= |evs| && forall k :: 0 <= k < i ==> !Absorbs(c, evs[k], units, lat, lng, originT)
    {
      i := i + 1;
    }
    assert i == which;
  }

  // ---------------------------------------------------------------------
  // Evidence
  // ---------------------------------------------------------------------

  function Later(a: real, b: real): real { if a >= b then a else b }

  /** The latest arrival among the cluster's votes. */
  function Support(vs: seq<Vote>): real {
    if vs == [] then 0.0 else Later(Support(vs[..|vs| - 1]), vs[|vs| - 1].lastArrival)
  }

  method SupportOf(vs: seq<Vote>) returns (s: real)
    ensures s == Support(vs)
  {
    s := 0.0;
    for i := 0 to |vs|
      invariant s == Support(vs[..i])
    {
      assert vs[..i + 1][..i] == vs[..i];
      s := Later(s, vs[i].lastArrival);
    }
    assert vs[..|vs|] == vs;
  }

  /** What an event takes from a located and weighed cluster. */
  datatype Finding = Finding(metrics: Metrics, lat: real, lng: real, originT: real)

  /** An event as it is created, before its first evaluation. */
  function NewEvent(id: nat, f: Finding, now: real): Event {
    Event(id, Unrated, true, Pending, now, now, 0.0, map[], f.originT, f.lat, f.lng, f.metrics, [], {}, map[], false,
          0.0)
  }

  /** A weaker view than the one the event already has: fewer units and less significant. */
  predicate Weaker(ev: Event, m: Metrics) {
    m.inlierUnits < ev.metrics.inlierUnits && m.log10PAdj > ev.metrics.log10PAdj
  }

  /** Stronger evidence replaces the event's; the votes and the support always count. */
  function Refreshed(ev: Event, f: Finding, weaker: bool, keys: set<VoteKey>, support: real, now: real): Event {
    var base := if weaker then ev
                else ev.(metrics := f.metrics, lat := f.lat, lng := f.lng, originT := f.originT, updatedAt := now);
    base.(voteKeys := base.voteKeys + keys, lastSupport := Later(base.lastSupport, support))
  }

  /** The evidence changed enough to be worth an update. */
  predicate Changed(a: Metrics, b: Metrics) {
    a.inlierUnits != b.inlierUnits || a.outlierUnits != b.outlierUnits || Abs(a.log10PAdj - b.log10PAdj) > 0.5
  }

  predicate Rose(base: Event, out: Event) { Rank(out.level) > Rank(base.level) }

  /** The event has just become real: its votes stop counting as background. */
  predicate BecomesExplained(base: Event, out: Event) { Rose(base, out) && Rank(out.level) >= 2 && !base.explained }

  /** At most one update: creation outranks a level, and a level outranks a plain change. */
  function UpdatesOf(base: Event, out: Event, isNew: bool, changed: bool): seq<Update> {
    if isNew then [Update(CreatedEvent, out)]
    else if Rose(base, out) then [Update(RaisedLevel, out)]
    else if changed then [Update(UpdatedEvent, out)]
    else []
  }

  /** What judging does to the event, the units and the counters. */
  ghost predicate Judged(c: Tuning, base: Event, vs: seq<Vote>, now: real, units: map<UnitKey, Unit>, k: Counters,
                         evals: seq<Eval>, out: Event, units2: map<UnitKey, Unit>, k2: Counters)
  {
    && Justified(c.levels, out, evals + [Eval(now, base.metrics)])
    && out == base.(level := out.level, decisions := out.decisions, levelTimes := out.levelTimes,
                    passSince := out.passSince, explained := base.explained || BecomesExplained(base, out))
    && Succeeds(base, out)
    && units2 == (if BecomesExplained(base, out) then R.Explain(units, vs) else units) && R.SameButVotes(units, units2)
    && k2 == k.(corroborated := k2.corroborated, confirmed := k2.confirmed)
    && k2.corroborated == k.corroborated - ReachesRank(base, 2) + ReachesRank(out, 2)
    && k2.confirmed == k.confirmed - ReachesRank(base, 3) + ReachesRank(out, 3)
  }

  /** One evaluation of an event on its evidence, with its consequences. */
  method Judge(c: Tuning, base: Event, vs: seq<Vote>, now: real, isNew: bool, changed: bool, units: map<UnitKey, Unit>,
               k: Counters, ghost evals: seq<Eval>)
    returns (out: Event, units2: map<UnitKey, Unit>, k2: Counters, ups: seq<Update>)
    requires now > 0.0 && Justified(c.levels, base, evals)
    requires evals == [] ==> Passes(c.levels, Candidate, base.metrics)
    ensures Judged(c, base, vs, now, units, k, evals, out, units2, k2)
    ensures ups == UpdatesOf(base, out, isNew, changed)
  {
    hide Justified, Passes, R.Explain, R.SameButVotes;
    var corroborated, confirmed;
    out, corroborated, confirmed := Assess(c.levels, base, now, evals);
    k2 := k.(corroborated := k.corroborated + corroborated, confirmed := k.confirmed + confirmed);
    units2, ups := units, if isNew then [Update(CreatedEvent, out)] else [];
    SameUnits(units);
    ghost var graded := out;
    if Rank(out.level) > Rank(base.level) {
      if !isNew { ups := [Update(RaisedLevel, out)]; }
      if Rank(out.level) >= 2 && !out.explained {
        out := out.(explained := true);
        units2 := R.ExplainVotes(units, vs);
      }
    } else if !isNew && changed {
      ups := [Update(UpdatedEvent, out)];
    }
    if ups != [] { ups := [ups[0].(event := out)]; }
    SameRecord(c.levels, graded, out, evals + [Eval(now, base.metrics)]);
  }

  lemma SameUnits(units: map<UnitKey, Unit>)
    ensures R.SameButVotes(units, units)
  {
  }
}
