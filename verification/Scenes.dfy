/** What one cluster does to the events, the units and the consumed evidence, case by case. */
module Scenes {
  import opened Votes
  import opened Levels
  import opened Events
  import opened Book
  import opened NetworkRules
  import A = Association
  import E = Evidence
  import J = Judging
  import R = Registry
  import Roster

  /** The part of the engine that a cluster can change. */
  datatype Scene = Scene(active: seq<Event>, units: map<UnitKey, Unit>, consumed: map<VoteKey, real>, seqNo: nat,
                         counters: Counters, log: map<nat, seq<Eval>>)

  ghost predicate SceneOk(r: Rules, s: Scene, past: seq<Event>, clock: real) {
    BookOk(r, s.active, past, s.log, s.seqNo, s.counters) && KeysPast(s.active, clock)
  }

  function LogOf(s: Scene, id: nat): seq<Eval> { if id in s.log then s.log[id] else [] }

  /** The event at i before its evaluation on this cluster. */
  function Before(s: Scene, i: nat, f: J.Finding, vs: seq<Vote>, now: real): Event
    requires i < |s.active|
  {
    J.Refreshed(s.active[i], f, J.Weaker(s.active[i], f.metrics), J.KeysOf(vs), J.Support(vs), now)
  }

  /** A new event before its evaluation. */
  function Opening(s: Scene, f: J.Finding, vs: seq<Vote>, now: real): Event {
    J.Refreshed(J.NewEvent(s.seqNo + 1, f, now), f, false, J.KeysOf(vs), J.Support(vs), now)
  }

  /** The event at i is judged on the cluster. */
  ghost predicate Updated(c: J.Tuning, s: Scene, i: nat, f: J.Finding, vs: seq<Vote>, now: real, out: Event, t: Scene)
    requires i < |s.active|
  {
    var base := Before(s, i, f, vs, now);
    && J.Judged(c, base, vs, now, s.units, s.counters, LogOf(s, base.id), out, t.units, t.counters)
    && t == s.(active := s.active[i := out], units := t.units, counters := t.counters,
               log := s.log[base.id := LogOf(s, base.id) + [Eval(now, base.metrics)]])
  }

  /** A new event is opened and judged on the cluster. */
  ghost predicate Opened(c: J.Tuning, s: Scene, f: J.Finding, vs: seq<Vote>, now: real, out: Event, t: Scene) {
    var base := Opening(s, f, vs, now);
    && J.Judged(c, base, vs, now, s.units, s.counters.(created := s.counters.created + 1), [], out, t.units, t.counters)
    && t == s.(active := s.active + [out], units := t.units, counters := t.counters, seqNo := s.seqNo + 1,
               log := s.log[base.id := [Eval(now, base.metrics)]])
  }

  /** An open event that takes the cluster in as a fragment of itself. */
  function Absorbing(ev: Event, vs: seq<Vote>): Event {
    ev.(voteKeys := ev.voteKeys + J.KeysOf(vs), lastSupport := J.Later(ev.lastSupport, J.Support(vs)))
  }

  /** The j-th of the open and recent events takes the cluster in: an open one its keys, a closed one consumes them. */
  function Absorbed(s: Scene, j: nat, vs: seq<Vote>, now: real): Scene {
    if j < |s.active| then s.(active := s.active[j := Absorbing(s.active[j], vs)])
    else s.(consumed := Consume(s.consumed, J.KeysOf(vs), now))
  }

  /** Which of the five things happens to a cluster. */
  datatype Course = SecondView(i: nat) | Further(i: nat) | TooWeak | Fragment(j: nat) | FirstView

  /** The course a cluster takes, decided in this order. */
  function CourseOf(c: J.Tuning, s: Scene, recent: seq<Event>, f: J.Finding, vs: seq<Vote>, touched: set<nat>): Course {
    var i := J.MatchOf(c, s.active, J.KeysOf(vs), f.lat, f.lng, f.originT);
    if i < |s.active| then (if s.active[i].id in touched then SecondView(i) else Further(i))
    else if !Passes(c.levels, Candidate, f.metrics) then TooWeak
    else
      var j := J.AbsorberOf(c, s.active + recent, f.metrics.inlierUnits, f.lat, f.lng, f.originT);
      if j < |s.active + recent| then Fragment(j) else FirstView
  }

  /**
   What applying a cluster does. A second cluster of an event already touched in this tick, and one too weak to open
   an event, do nothing; a fragment only hands over its keys; the others are judged, with at most one update.
   */
  ghost predicate Applied(c: J.Tuning, s: Scene, recent: seq<Event>, f: J.Finding, vs: seq<Vote>, now: real,
                          touched: set<nat>, t: Scene, touched2: set<nat>, ups: seq<J.Update>)
  {
    match CourseOf(c, s, recent, f, vs, touched)
    case SecondView(_) => t == s && touched2 == touched && ups == []
    case TooWeak => t == s && touched2 == touched && ups == []
    case Fragment(j) => t == Absorbed(s, j, vs, now) && touched2 == touched && ups == []
    case Further(i) =>
      i < |s.active|
      && var changed := !J.Weaker(s.active[i], f.metrics) && J.Changed(s.active[i].metrics, f.metrics);
         exists out :: Updated(c, s, i, f, vs, now, out, t) && touched2 == touched + {out.id}
                       && ups == J.UpdatesOf(Before(s, i, f, vs, now), out, false, changed)
    case FirstView =>
      exists out :: Opened(c, s, f, vs, now, out, t) && touched2 == touched + {out.id}
                    && ups == J.UpdatesOf(Opening(s, f, vs, now), out, true, false)
  }

  // ---------------------------------------------------------------------
  // Every course keeps the book
  // ---------------------------------------------------------------------

  /** What every course keeps. */
  ghost predicate Kept(r: Rules, s: Scene, t: Scene, past: seq<Event>, now: real) {
    && SceneOk(r, t, past, now) && Grown(s.active + past, t.active + past)
    && R.SameButVotes(s.units, t.units)
  }

  lemma KeysOfEvent(evs: seq<Event>, now: real, i: nat, ev: Event, keys: set<VoteKey>)
    requires KeysPast(evs, now) && i < |evs| && ev.voteKeys == evs[i].voteKeys + keys
    requires forall k :: k in keys ==> k.second as real <= now + 5.0
    ensures KeysPast(evs[i := ev], now)
  {
  }

  lemma RecordOf(r: Rules, s: Scene, past: seq<Event>, i: nat)
    requires BookOk(r, s.active, past, s.log, s.seqNo, s.counters) && i < |s.active|
    ensures Open(s.active[i]) && s.active[i].id in s.log && s.log[s.active[i].id] != []
    ensures Justified(r, s.active[i], s.log[s.active[i].id])
  {
    hide Justified;
    assert (s.active + past)[i] == s.active[i];
    assert OnRecord(r, s.log, (s.active + past)[i]);
  }

  lemma UpdateKeeps(c: J.Tuning, s: Scene, past: seq<Event>, i: nat, f: J.Finding, vs: seq<Vote>, now: real, out: Event,
                    t: Scene)
    requires SceneOk(c.levels, s, past, now) && i < |s.active| && Updated(c, s, i, f, vs, now, out, t)
    requires forall k :: k in J.KeysOf(vs) ==> k.second as real <= now + 5.0
    ensures Kept(c.levels, s, t, past, now)
  {
    hide BookOk, Justified, Grown, KeysPast, J.KeysOf, J.Weaker, J.Support, R.Explain, R.SameButVotes, ReachesRank;
    var base, ev := Before(s, i, f, vs, now), s.active[i];
    var evals := LogOf(s, ev.id) + [Eval(now, base.metrics)];
    RecordOf(c.levels, s, past, i);
    SameRanks(ev, base);
    BookReplaced(c.levels, s.active, past, s.log, s.seqNo, s.counters, i, out, evals, t.counters);
    KeysOfEvent(s.active, now, i, out, J.KeysOf(vs));
  }

  lemma SameRanks(a: Event, b: Event)
    requires a.level == b.level
    ensures ReachesRank(a, 2) == ReachesRank(b, 2) && ReachesRank(a, 3) == ReachesRank(b, 3)
  {
  }

  lemma OpenKeeps(c: J.Tuning, s: Scene, past: seq<Event>, f: J.Finding, vs: seq<Vote>, now: real, out: Event, t: Scene)
    requires SceneOk(c.levels, s, past, now) && Opened(c, s, f, vs, now, out, t)
    requires forall k :: k in J.KeysOf(vs) ==> k.second as real <= now + 5.0
    ensures Kept(c.levels, s, t, past, now)
  {
    hide BookOk, Justified, Grown, J.KeysOf, J.Support, R.Explain, R.SameButVotes, ReachesRank;
    var base := Opening(s, f, vs, now);
    assert ReachesRank(base, 2) == 0 && ReachesRank(base, 3) == 0 by { Unranked(base); }
    assert [] + [Eval(now, base.metrics)] == [Eval(now, base.metrics)];
    BookOpened(c.levels, s.active, past, s.log, s.seqNo, s.counters, out, [Eval(now, base.metrics)], t.counters);
    assert s.active + [out] + past == t.active + past;
  }

  lemma Unranked(ev: Event)
    requires ev.level == Unrated
    ensures ReachesRank(ev, 2) == 0 && ReachesRank(ev, 3) == 0
  {
  }

  lemma AbsorbKeeps(r: Rules, s: Scene, past: seq<Event>, j: nat, vs: seq<Vote>, now: real)
    requires SceneOk(r, s, past, now)
    requires forall k :: k in J.KeysOf(vs) ==> k.second as real <= now + 5.0
    ensures Kept(r, s, Absorbed(s, j, vs, now), past, now)
  {
    hide BookOk, Justified, KeysPast, Grown, J.KeysOf, J.Support, ReachesRank;
    assert R.SameButVotes(s.units, s.units);
    if j < |s.active| {
      var ev := s.active[j];
      var out := Absorbing(ev, vs);
      RecordOf(r, s, past, j);
      SameRecord(r, ev, out, s.log[ev.id]);
      SameRanks(ev, out);
      BookReplaced(r, s.active, past, s.log, s.seqNo, s.counters, j, out, s.log[ev.id], s.counters);
      assert s.log[ev.id := s.log[ev.id]] == s.log;
      KeysOfEvent(s.active, now, j, out, J.KeysOf(vs));
    } else {
      GrownSelf(s.active + past);
    }
  }

  // ---------------------------------------------------------------------
  // The courses, as they are taken
  // ---------------------------------------------------------------------

  lemma NothingApplied(c: J.Tuning, s: Scene, recent: seq<Event>, f: J.Finding, vs: seq<Vote>, now: real,
                       touched: set<nat>)
    requires CourseOf(c, s, recent, f, vs, touched).SecondView? || CourseOf(c, s, recent, f, vs, touched).TooWeak?
    ensures Applied(c, s, recent, f, vs, now, touched, s, touched, [])
  {
  }

  lemma FragmentApplied(c: J.Tuning, s: Scene, recent: seq<Event>, f: J.Finding, vs: seq<Vote>, now: real,
                        touched: set<nat>, j: nat)
    requires CourseOf(c, s, recent, f, vs, touched) == Fragment(j)
    ensures Applied(c, s, recent, f, vs, now, touched, Absorbed(s, j, vs, now), touched, [])
  {
    hide CourseOf, Absorbed;
  }

  lemma FurtherApplied(c: J.Tuning, s: Scene, recent: seq<Event>, f: J.Finding, vs: seq<Vote>, now: real,
                       touched: set<nat>, i: nat, out: Event, t: Scene, ups: seq<J.Update>)
    requires CourseOf(c, s, recent, f, vs, touched) == Further(i) && i < |s.active|
             && Updated(c, s, i, f, vs, now, out, t)
    requires ups == J.UpdatesOf(Before(s, i, f, vs, now), out, false,
                                !J.Weaker(s.active[i], f.metrics) && J.Changed(s.active[i].metrics, f.metrics))
    ensures Applied(c, s, recent, f, vs, now, touched, t, touched + {out.id}, ups)
  {
    hide CourseOf, Updated, J.UpdatesOf, Before;
  }

  lemma FirstApplied(c: J.Tuning, s: Scene, recent: seq<Event>, f: J.Finding, vs: seq<Vote>, now: real,
                     touched: set<nat>, out: Event, t: Scene, ups: seq<J.Update>)
    requires CourseOf(c, s, recent, f, vs, touched) == FirstView && Opened(c, s, f, vs, now, out, t)
    requires ups == J.UpdatesOf(Opening(s, f, vs, now), out, true, false)
    ensures Applied(c, s, recent, f, vs, now, touched, t, touched + {out.id}, ups)
  {
    hide CourseOf, Opened, J.UpdatesOf, Opening;
  }

  lemma OneUpdate(c: J.Tuning, s: Scene, recent: seq<Event>, f: J.Finding, vs: seq<Vote>, now: real, touched: set<nat>,
                  t: Scene, touched2: set<nat>, ups: seq<J.Update>)
    requires Applied(c, s, recent, f, vs, now, touched, t, touched2, ups)
    ensures |ups| <= 1
  {
    hide CourseOf, Updated, Opened, Absorbed;
  }

  /** The course follows the order of the tests. */
  lemma CourseSteps(c: J.Tuning, s: Scene, recent: seq<Event>, f: J.Finding, vs: seq<Vote>, touched: set<nat>)
    ensures var i := J.MatchOf(c, s.active, J.KeysOf(vs), f.lat, f.lng, f.originT);
            var j := J.AbsorberOf(c, s.active + recent, f.metrics.inlierUnits, f.lat, f.lng, f.originT);
            CourseOf(c, s, recent, f, vs, touched)
            == if i < |s.active| then (if s.active[i].id in touched then SecondView(i) else Further(i))
               else if !Passes(c.levels, Candidate, f.metrics) then TooWeak
               else if j < |s.active + recent| then Fragment(j) else FirstView
  {
    hide J.MatchOf, J.AbsorberOf, Passes, J.KeysOf;
  }

  /** The votes' keys are bounded when the votes are. */
  lemma KeysBounded(vs: seq<Vote>, now: real)
    requires forall v :: v in vs ==> v.key.second as real <= now + 5.0
    ensures forall k :: k in J.KeysOf(vs) ==> k.second as real <= now + 5.0
  {
  }

  lemma KeptParts(r: Rules, s: Scene, t: Scene, past: seq<Event>, now: real)
    requires Kept(r, s, t, past, now)
    ensures BookOk(r, t.active, past, t.log, t.seqNo, t.counters) && KeysPast(t.active, now)
    ensures Grown(s.active + past, t.active + past) && R.SameButVotes(s.units, t.units)
  {
    hide BookOk, KeysPast, Grown, R.SameButVotes;
  }

  lemma SceneWhole(r: Rules, s: Scene, past: seq<Event>, clock: real)
    requires BookOk(r, s.active, past, s.log, s.seqNo, s.counters) && KeysPast(s.active, clock)
    ensures SceneOk(r, s, past, clock)
  {
    hide BookOk, KeysPast;
  }

  /** What judging an existing event needs. */
  lemma ReadyAgain(c: J.Tuning, s: Scene, past: seq<Event>, i: nat, f: J.Finding, vs: seq<Vote>, now: real)
    requires SceneOk(c.levels, s, past, now) && i < |s.active|
    ensures var base := Before(s, i, f, vs, now);
            Justified(c.levels, base, LogOf(s, base.id)) && LogOf(s, base.id) != [] && base.id == s.active[i].id
  {
    hide BookOk, Justified, KeysPast, J.KeysOf, J.Weaker, J.Support;
    RecordOf(c.levels, s, past, i);
    SameRecord(c.levels, s.active[i], Before(s, i, f, vs, now), LogOf(s, s.active[i].id));
  }

  /** What judging a new event needs. */
  lemma ReadyFirst(c: J.Tuning, s: Scene, f: J.Finding, vs: seq<Vote>, now: real)
    ensures var base := Opening(s, f, vs, now);
            Justified(c.levels, base, []) && base.metrics == f.metrics && base.id == s.seqNo + 1
  {
    hide J.KeysOf, J.Support;
    FreshRecord(c.levels, Opening(s, f, vs, now));
  }

  // ---------------------------------------------------------------------
  // Closing quiet events
  // ---------------------------------------------------------------------

  /** The events that stay open. */
  function Lively(c: J.Tuning, evs: seq<Event>, now: real): seq<Event> {
    if evs == [] then []
    else
      var e := evs[|evs| - 1];
      if QuietEvent(c, e, now) then Lively(c, evs[..|evs| - 1], now) else Lively(c, evs[..|evs| - 1], now) + [e]
  }

  /** The closed versions of the events that do not. */
  function Closings(c: J.Tuning, evs: seq<Event>, now: real): seq<Event> {
    if evs == [] then []
    else
      var e := evs[|evs| - 1];
      if QuietEvent(c, e, now) then Closings(c, evs[..|evs| - 1], now) + [CloseEvent(e, now)]
      else Closings(c, evs[..|evs| - 1], now)
  }

  /** Every key of every closed event is consumed. */
  function ConsumedBy(consumed: map<VoteKey, real>, closed: seq<Event>, now: real): map<VoteKey, real> {
    if closed == [] then consumed
    else Consume(ConsumedBy(consumed, closed[..|closed| - 1], now), closed[|closed| - 1].voteKeys, now)
  }

  function KeysIn(evs: seq<Event>): set<VoteKey> {
    if evs == [] then {} else KeysIn(evs[..|evs| - 1]) + evs[|evs| - 1].voteKeys
  }

  /** A closing update for each closed event. */
  function ClosingUpdates(closed: seq<Event>): (r: seq<J.Update>)
    ensures |r| == |closed|
  {
    seq(|closed|, i requires 0 <= i < |closed| => J.Update(J.ClosedEvent, closed[i]))
  }

  lemma ClosingStep(c: J.Tuning, evs: seq<Event>, now: real, i: nat)
    requires i < |evs|
    ensures var quiet := QuietEvent(c, evs[i], now);
            Lively(c, evs[..i + 1], now) ==
               (if quiet then Lively(c, evs[..i], now) else Lively(c, evs[..i], now) + [evs[i]])
            && Closings(c, evs[..i + 1], now)
               == if quiet then Closings(c, evs[..i], now) + [CloseEvent(evs[i], now)] else Closings(c, evs[..i], now)
  {
    hide QuietEvent, CloseEvent;
    assert evs[..i + 1][..i] == evs[..i];
  }

  lemma ConsumedStep(consumed: map<VoteKey, real>, closed: seq<Event>, e: Event, now: real)
    ensures ConsumedBy(consumed, closed + [e], now) == Consume(ConsumedBy(consumed, closed, now), e.voteKeys, now)
    ensures KeysIn(closed + [e]) == KeysIn(closed) + e.voteKeys
    ensures ClosingUpdates(closed + [e]) == ClosingUpdates(closed) + [J.Update(J.ClosedEvent, e)]
  {
    hide Consume;
    assert (closed + [e])[..|closed|] == closed;
  }

  /** The book while the events from position i on are still to be looked at. */
  ghost predicate Closing(r: Rules, evs: seq<Event>, i: nat, past: seq<Event>, log: map<nat, seq<Eval>>, last: nat,
                          kept: seq<Event>, closed: seq<Event>, k: Counters)
  {
    && i <= |evs| && BookOk(r, kept + evs[i..], past + closed, log, last, k)
    && Grown(evs + past, kept + evs[i..] + (past + closed))
  }

  lemma ClosingKeep(r: Rules, evs: seq<Event>, i: nat, past: seq<Event>, log: map<nat, seq<Eval>>, last: nat,
                    kept: seq<Event>, closed: seq<Event>, k: Counters)
    requires Closing(r, evs, i, past, log, last, kept, closed, k) && i < |evs|
    ensures Closing(r, evs, i + 1, past, log, last, kept + [evs[i]], closed, k)
  {
    hide BookOk, Grown;
    assert kept + evs[i..] == kept + [evs[i]] + evs[i + 1..];
  }

  lemma ClosingDrop(r: Rules, evs: seq<Event>, i: nat, past: seq<Event>, log: map<nat, seq<Eval>>, last: nat,
                    kept: seq<Event>, closed: seq<Event>, k: Counters, now: real)
    requires Closing(r, evs, i, past, log, last, kept, closed, k) && i < |evs|
    ensures Closing(r, evs, i + 1, past, log, last, kept, closed + [CloseEvent(evs[i], now)],
                    k.(dismissed := k.dismissed + if evs[i].level == Candidate then 1 else 0))
  {
    hide BookOk, Grown, CloseEvent;
    var e, rest := evs[i], evs[i + 1..];
    var k2 := k.(dismissed := k.dismissed + if e.level == Candidate then 1 else 0);
    assert kept + evs[i..] == kept + [e] + rest;
    BookClosed(r, kept, e, rest, past + closed, log, last, k, now, k2);
    assert past + closed + [CloseEvent(e, now)] == past + (closed + [CloseEvent(e, now)]);
    GrownVia(evs + past, kept + [e] + rest + (past + closed), kept + rest + (past + closed + [CloseEvent(e, now)]));
  }

  /** Closes the quiet events, consuming their votes. */
  method CloseAll(c: J.Tuning, evs: seq<Event>, consumed0: map<VoteKey, real>, k0: Counters, now: real,
                  ghost v: VoteRules, ghost past: seq<Event>, ghost log: map<nat, seq<Eval>>, ghost last: nat,
                  ghost ever: set<VoteKey>)
    returns (kept: seq<Event>, closed: seq<Event>, consumed: map<VoteKey, real>, k: Counters, ups: seq<J.Update>)
    requires BookOk(c.levels, evs, past, log, last, k0) && KeysPast(evs, now)
    requires ConsumedOk(consumed0) && EverOk(v, ever, consumed0, now)
    ensures kept == Lively(c, evs, now) && closed == Closings(c, evs, now) && ups == ClosingUpdates(closed)
    ensures consumed == ConsumedBy(consumed0, closed, now)
    ensures k == k0.(dismissed := k.dismissed) && k.dismissed == k0.dismissed + DismissedCount(closed)
    ensures BookOk(c.levels, kept, past + closed, log, last, k) && KeysPast(kept, now)
    ensures Grown(evs + past, kept + (past + closed))
    ensures ConsumedOk(consumed) && EverOk(v, ever + KeysIn(closed), consumed, now)
  {
    hide DismissedCount, Closing, BookOk, KeysPast, ConsumedOk, EverOk, QuietEvent, Grown, Lively, Closings, ConsumedBy,
         KeysIn, ClosingUpdates, Consume;
    kept, closed, consumed, k, ups := [], [], consumed0, k0, [];
    ClosingStarts(c, v, evs, past, log, last, k0, consumed0, now, ever);
    for i := 0 to |evs|
      invariant kept == Lively(c, evs[..i], now) && closed == Closings(c, evs[..i], now)
                && ups == ClosingUpdates(closed)
      invariant consumed == ConsumedBy(consumed0, closed, now)
      invariant k == k0.(dismissed := k.dismissed) && k.dismissed == k0.dismissed + DismissedCount(closed)
      invariant Closing(c.levels, evs, i, past, log, last, kept, closed, k) && KeysPast(kept, now)
      invariant ConsumedOk(consumed) && EverOk(v, ever + KeysIn(closed), consumed, now)
    {
      var e := evs[i];
      ClosingStep(c, evs, now, i);
      KeysKept(evs, now, i, kept);
      if QuietEvent(c, e, now) {
        ClosingDrop(c.levels, evs, i, past, log, last, kept, closed, k, now);
        var done := CloseEvent(e, now);
        ConsumedStep(consumed0, closed, done, now);
        DismissedAppend(closed, done);
        ConsumeOk(v, ever + KeysIn(closed), consumed, e.voteKeys, now, now);
        assert ever + KeysIn(closed) + e.voteKeys == ever + (KeysIn(closed) + e.voteKeys);
        if e.level == Candidate { k := k.(dismissed := k.dismissed + 1); }
        consumed := Consume(consumed, e.voteKeys, now);
        closed, ups := closed + [done], ups + [J.Update(J.ClosedEvent, done)];
      } else {
        ClosingKeep(c.levels, evs, i, past, log, last, kept, closed, k);
        kept := kept + [e];
      }
    }
    assert evs[..|evs|] == evs;
    ClosingEnds(c.levels, evs, past, log, last, kept, closed, k);
  }

  lemma ClosingStarts(c: J.Tuning, v: VoteRules, evs: seq<Event>, past: seq<Event>, log: map<nat, seq<Eval>>, last: nat,
                      k: Counters, consumed: map<VoteKey, real>, now: real, ever: set<VoteKey>)
    requires BookOk(c.levels, evs, past, log, last, k) && EverOk(v, ever, consumed, now)
    ensures Closing(c.levels, evs, 0, past, log, last, [], [], k) && KeysPast([], now)
    ensures Lively(c, evs[..0], now) == [] && Closings(c, evs[..0], now) == [] && ClosingUpdates([]) == []
    ensures ConsumedBy(consumed, [], now) == consumed && EverOk(v, ever + KeysIn([]), consumed, now)
            && DismissedCount([]) == 0
  {
    hide BookOk, EverOk;
    assert [] + evs[0..] == evs && past + [] == past && ever + KeysIn([]) == ever;
    GrownSelf(evs + past);
  }

  lemma ClosingEnds(r: Rules, evs: seq<Event>, past: seq<Event>, log: map<nat, seq<Eval>>, last: nat,
                    kept: seq<Event>, closed: seq<Event>, k: Counters)
    requires Closing(r, evs, |evs|, past, log, last, kept, closed, k)
    ensures BookOk(r, kept, past + closed, log, last, k) && Grown(evs + past, kept + (past + closed))
  {
    hide BookOk, Grown;
    assert kept + evs[|evs|..] == kept;
  }

  lemma KeysKept(evs: seq<Event>, now: real, i: nat, kept: seq<Event>)
    requires KeysPast(evs, now) && i < |evs| && KeysPast(kept, now)
    ensures KeysPast(kept + [evs[i]], now) && forall k :: k in evs[i].voteKeys ==> k.second as real <= now + 5.0
  {
  }

  // ---------------------------------------------------------------------
  // One cluster after another
  // ---------------------------------------------------------------------

  /** One cluster's turn: what it found, and the scene before and after. */
  datatype Turn = Turn(cl: A.Cluster, f: J.Finding, before: Scene, touched: set<nat>, after: Scene, touched2: set<nat>,
                       ups: seq<J.Update>)

  /** What does not change during a tick: the tuning, the stations, the recent events and the time. */
  datatype Setting = Setting(judge: J.Tuning, evidence: E.Tuning, stations: map<Device, Roster.Station>,
                             recent: seq<Event>, now: real)

  /** The cluster is weighed against the scene it meets, and takes its course on that finding. */
  ghost predicate TurnOk(g: Setting, t: Turn) {
    && E.ValidTuning(g.evidence)
    && E.Assessed(g.evidence, t.cl, E.Field(t.before.units, g.stations, g.now), t.f.metrics, t.f.lat, t.f.lng)
    && t.f.originT == t.cl.fit.originT
    && Applied(g.judge, t.before, g.recent, t.f, t.cl.votes, g.now, t.touched, t.after, t.touched2, t.ups)
  }

  /** The turns lead from scene s to scene t, starting with no event touched. */
  ghost predicate Chained(turns: seq<Turn>, s: Scene, t: Scene, touched: set<nat>) {
    if turns == [] then t == s && touched == {}
    else
      var last := turns[|turns| - 1];
      last.after == t && last.touched2 == touched && Chained(turns[..|turns| - 1], s, last.before, last.touched)
  }

  function UpdatesIn(turns: seq<Turn>): seq<J.Update> {
    if turns == [] then [] else UpdatesIn(turns[..|turns| - 1]) + turns[|turns| - 1].ups
  }

  /** Every cluster had its turn, in order. */
  ghost predicate AllTurns(g: Setting, cls: seq<A.Cluster>, turns: seq<Turn>) {
    |turns| == |cls| && forall i :: 0 <= i < |cls| ==> turns[i].cl == cls[i] && TurnOk(g, turns[i])
  }

  lemma TurnAdded(g: Setting, cls: seq<A.Cluster>, i: nat, turns: seq<Turn>, s: Scene, t: Turn)
    requires i < |cls|
    requires AllTurns(g, cls[..i], turns) && Chained(turns, s, t.before, t.touched)
    requires t.cl == cls[i] && TurnOk(g, t)
    ensures AllTurns(g, cls[..i + 1], turns + [t]) && Chained(turns + [t], s, t.after, t.touched2)
    ensures UpdatesIn(turns + [t]) == UpdatesIn(turns) + t.ups
  {
    hide TurnOk;
    var more := turns + [t];
    assert more[..|turns|] == turns;
    forall k | 0 <= k < |more| ensures more[k].cl == cls[..i + 1][k] && TurnOk(g, more[k]) {
      if k < i { assert cls[..i + 1][k] == cls[..i][k]; }
    }
  }

  lemma NoTurns(g: Setting, cls: seq<A.Cluster>, s: Scene)
    requires cls == []
    ensures AllTurns(g, cls, []) && Chained([], s, s, {}) && UpdatesIn([]) == []
  {
  }

  /** A tick event whose time has not come stays open, and every other one is closed. */
  lemma {:induction false} LivelyOrClosed(c: J.Tuning, evs: seq<Event>, now: real)
    ensures forall e :: e in Lively(c, evs, now) <==> e in evs && !QuietEvent(c, e, now)
    ensures forall e :: e in evs && QuietEvent(c, e, now) ==> CloseEvent(e, now) in Closings(c, evs, now)
    ensures |Lively(c, evs, now)| + |Closings(c, evs, now)| == |evs|
  {
    hide QuietEvent, CloseEvent;
    if evs != [] {
      var n := |evs| - 1;
      LivelyOrClosed(c, evs[..n], now);
      assert evs == evs[..n] + [evs[n]];
    }
  }
}
