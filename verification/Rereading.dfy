/**
 A vote that is read again. A second phone joining a run changes the vote's time and deviation and leaves its key alone;
 if they still print alike, the next tick takes the cached clusters of the earlier reading for those of the new one.
 */
module Rereading {
  import opened Basics
  import opened Decimals
  import opened Medians
  import opened Votes
  import opened Selection
  import A = Association
  import Geo
  import L = Locator
  import Linking
  import Pairs
  import T = TravelTimes

  // ---------------------------------------------------------------------
  // The votes of two runs
  // ---------------------------------------------------------------------

  /** The unit with these picks. */
  function Holding(u: Unit, picks: seq<UnitPick>): Unit { u.(picks := picks) }

  /** A run and a single pick well after it give one vote each. */
  lemma TwoRuns(c: VoteRules, u: Unit, run: seq<UnitPick>, q: UnitPick, nElig: nat, adet: real, out: seq<Vote>)
    requires Run(run, c.unitVoteSec) && q.t - run[|run| - 1].t > c.unitVoteSec
    requires RunVote(c, u, run, nElig, adet).Some? && RunVote(c, u, [q], nElig, adet).Some?
    requires VotesByRuns(c, Holding(u, run + [q]), nElig, adet, out)
    ensures out == [RunVote(c, u, run, nElig, adet).value, RunVote(c, u, [q], nElig, adet).value]
  {
    assert run != [];
    hide RunVote, MaximalRuns, Run, VotesOf;
    var u2 := Holding(u, run + [q]);
    var runs :| MaximalRuns(runs, u2.picks, c.unitVoteSec) && NonEmpty(runs)
                && out == VotesOf(c, u2, runs, nElig, adet);
    TwoMaximalRuns(run, q, c.unitVoteSec);
    RunsUnique(runs, [run, [q]], u2.picks, c.unitVoteSec);
    SameRunVote(c, u, run + [q], run, nElig, adet);
    SameRunVote(c, u, run + [q], [q], nElig, adet);
    VotesOfTwo(c, u2, run, [q], nElig, adet);
  }

  lemma TwoMaximalRuns(run: seq<UnitPick>, q: UnitPick, gap: real)
    requires Run(run, gap) && q.t - run[|run| - 1].t > gap
    ensures MaximalRuns([run, [q]], run + [q], gap)
  {
    var both := [run, [q]];
    assert Run([q], gap) && Apart(run, [q], gap);
    hide Run, Apart;
    assert Concat(both) == run + [q] by {
      ConcatAppend([], run);
      ConcatAppend([run], [q]);
      hide Concat;
      assert [] + [run] == [run] && [run] + [[q]] == both;
      NoConcat(run);
    }
    hide Concat;
    assert both[0] == run && both[1] == [q];
  }

  lemma NoConcat(run: seq<UnitPick>)
    ensures Concat([]) + run == run
  {
  }

  lemma VotesOfTwo(c: VoteRules, u: Unit, a: seq<UnitPick>, b: seq<UnitPick>, nElig: nat, adet: real)
    requires a != [] && b != [] && RunVote(c, u, a, nElig, adet).Some? && RunVote(c, u, b, nElig, adet).Some?
    ensures VotesOf(c, u, [a, b], nElig, adet)
            == [RunVote(c, u, a, nElig, adet).value, RunVote(c, u, b, nElig, adet).value]
  {
    hide RunVote;
    assert [a, b][..1] == [a] && [a][..0] == [];
    assert VotesOf(c, u, [a], nElig, adet) == [RunVote(c, u, a, nElig, adet).value];
  }

  lemma SameRunVote(c: VoteRules, u: Unit, picks: seq<UnitPick>, run: seq<UnitPick>, nElig: nat, adet: real)
    requires run != []
    ensures RunVote(c, Holding(u, picks), run, nElig, adet) == RunVote(c, u, run, nElig, adet)
  {
    hide Median, Leads, Devs, Quorum;
  }

  /** One phone's pick, and two phones' picks, are a quorum of the unit. */
  predicate Enough(c: VoteRules, nElig: nat) {
    Quorum(c, Listening(nElig, 1)) <= 1 && Quorum(c, Listening(nElig, 2)) <= 2
  }

  /** How the vote of a single pick is read. */
  function Alone(u: Unit, p: UnitPick): A.Reading { A.Reading(VoteKey(u.key, p.t.Floor), p.t, p.sigma) }

  /** How it is read when another phone's pick has joined the run. */
  function Together(u: Unit, p: UnitPick, p2: UnitPick): A.Reading {
    A.Reading(VoteKey(u.key, p.t.Floor), (p.t + p2.t) / 2.0, (p.sigma + p2.sigma) / 2.0)
  }

  /** The vote is there, stands where the unit does and is read like this. */
  predicate CastAs(u: Unit, v: Option<Vote>, r: A.Reading) {
    v.Some? && A.ReadingOf(v.value) == r && v.value.lat == u.lat && v.value.lng == u.lng
  }

  lemma CastAlone(c: VoteRules, u: Unit, p: UnitPick, nElig: nat, adet: real)
    requires Enough(c, nElig)
    ensures CastAs(u, RunVote(c, u, [p], nElig, adet), Alone(u, p))
  {
    hide Median, Quorum, Leads, Devs;
    LeadAlone(p);
    MedianOfOne(p.t);
    MedianOfOne(p.sigma);
  }

  lemma LeadAlone(p: UnitPick)
    ensures Devs([p]) == {p.dev} && Leads([p]) == [p] && Times([p]) == [p.t] && Sigmas([p]) == [p.sigma]
  {
    assert [p][..0] == [];
  }

  lemma LeadsTogether(p: UnitPick, p2: UnitPick)
    requires p.dev != p2.dev
    ensures Devs([p, p2]) == {p.dev, p2.dev} && Leads([p, p2]) == [p, p2]
    ensures Times([p, p2]) == [p.t, p2.t] && Sigmas([p, p2]) == [p.sigma, p2.sigma]
  {
    LeadAlone(p);
    hide Leads, Devs;
    assert [p, p2] == [p] + [p2];
    DevsAppend([p], p2);
    LeadsAppend([p], p2);
  }

  lemma CastTogether(c: VoteRules, u: Unit, p: UnitPick, p2: UnitPick, nElig: nat, adet: real)
    requires Enough(c, nElig) && p.dev != p2.dev
    ensures CastAs(u, RunVote(c, u, [p, p2], nElig, adet), Together(u, p, p2))
  {
    hide Median, Quorum, Leads, Devs;
    LeadsTogether(p, p2);
    assert |{p.dev, p2.dev}| == 2;
    MedianOfTwo(p.t, p2.t);
    MedianOfTwo(p.sigma, p2.sigma);
  }

  // ---------------------------------------------------------------------
  // One more phone
  // ---------------------------------------------------------------------

  /** The second phone's pick belongs to the run of the first one's. */
  predicate Joins(c: VoteRules, p: UnitPick, p2: UnitPick) {
    p.dev != p2.dev && p.t <= p2.t && p2.t - p.t <= c.unitVoteSec
  }

  /** Both groups are linked, and the cached solution of the first is wrong for the second. */
  ghost predicate Harmed(c: A.Tuning, g: seq<Vote>, g2: seq<Vote>)
    requires Linking.ValidRules(c.link)
  {
    && Pairs.TwinVotes(g) && Pairs.TwinVotes(g2) && g2[0].lat == g[0].lat && g2[0].lng == g[0].lng
    && Linking.Linked(c.link, g[0], g[1]) && Linking.Linked(c.link, g2[0], g2[1])
    && forall cls :: A.ExtractionOf(c, g, cls) ==> Pairs.Stale(c, g, g2, cls)
  }

  /** Whatever votes the picks give before and after. */
  ghost predicate Harms(c: A.Tuning, votes: VoteRules, u: Unit, before: seq<UnitPick>, later: seq<UnitPick>, nElig: nat,
                        adet: real)
    requires Linking.ValidRules(c.link)
  {
    var u1, u2 := Holding(u, before), Holding(u, later);
    forall g, g2 :: VotesByRuns(votes, u1, nElig, adet, g) && VotesByRuns(votes, u2, nElig, adet, g2) ==>
                      Harmed(c, g, g2)
  }

  lemma HarmedBy(c: A.Tuning, votes: VoteRules, u: Unit, before: seq<UnitPick>, later: seq<UnitPick>, nElig: nat,
                 adet: real, g: seq<Vote>, g2: seq<Vote>)
    requires Linking.ValidRules(c.link) && Harms(c, votes, u, before, later, nElig, adet)
    requires VotesByRuns(votes, Holding(u, before), nElig, adet, g)
    requires VotesByRuns(votes, Holding(u, later), nElig, adet, g2)
    ensures Harmed(c, g, g2)
  {
    hide VotesByRuns, Harmed;
  }

  /**
   The source: a node of the first grid around the unit, far enough for its P and S waves to be told apart and to make
   two runs, near enough for them to be linked.
   */
  ghost predicate Between(c: A.Tuning, votes: VoteRules, u: Unit, p: UnitPick, p2: UnitPick, x: real, y: real)
    requires Linking.ValidRules(c.link)
  {
    var tc, place, d := c.link.travel, (u.lat, u.lng), c.link.dist(u.lat, u.lng, u.lat, u.lng);
    var a, b := Pairs.ObsAt(c, place, Alone(u, p)), Pairs.ObsAt(c, place, Together(u, p, p2));
    && Pairs.Separable(tc, a, b, x, y) && 0.0 <= d <= c.link.maxLinkKM
    && votes.unitVoteSec + (p2.t - p.t) <= Pairs.Lag(tc, x, y, a)
    && Pairs.Lag(tc, x, y, a) + (p2.t - p.t) <= Linking.Slack(c.link)
  }

  /**
   One more phone is enough: it joins the run of a unit's P wave and changes the vote's time or deviation by less than
   is printed. For some later pick of the first phone, of the S wave, the cached solution is then wrong.
   */
  lemma OneMorePhone(c: A.Tuning, votes: VoteRules, u: Unit, p: UnitPick, p2: UnitPick, nElig: nat, adet: real, x: real,
                     y: real)
    returns (q: UnitPick)
    requires A.ValidTuning(c) && Linking.ValidRules(c.link) && Pairs.LateS(c.link.travel) && votes.unitVoteSec > 0.0
    requires Enough(votes, nElig) && Joins(votes, p, p2) && Between(c, votes, u, p, p2, x, y)
    requires A.MarkOf(Alone(u, p)) == A.MarkOf(Together(u, p, p2))
    requires p.t != p2.t || Linking.Tau(c.link, p.sigma) != Linking.Tau(c.link, (p.sigma + p2.sigma) / 2.0)
    ensures q == p.(seqNo := p.seqNo + 1, t := q.t) && InOrder([p, q]) && InOrder([p, p2, q])
    ensures Harms(c, votes, u, [p, q], [p, p2, q], nElig, adet)
  {
    var place, r, r2 := (u.lat, u.lng), Alone(u, p), Together(u, p, p2);
    Pairs.ObsAtIs(c, place, r, r2);
    BetweenParts(c, votes, u, p, p2, x, y);
    hide Between, Pairs.Separable, Linking.Tau, Linking.Slack, Pairs.Lag, A.ValidTuning, A.MarkOf, A.ExtractionOf,
         Pairs.Stale, Pairs.LateS, VotesByRuns, Harmed, Enough, Pairs.ObsAt;
    var s := Pairs.StaleSolution(c, place, r, r2, x, y);
    q := p.(seqNo := p.seqNo + 1, t := s.t);
    forall g, g2 | VotesByRuns(votes, Holding(u, [p, q]), nElig, adet, g)
                   && VotesByRuns(votes, Holding(u, [p, p2, q]), nElig, adet, g2)
      ensures Harmed(c, g, g2)
    {
      CastBoth(votes, u, p, p2, q, nElig, adet, g, g2);
      BothLinked(c, votes, u, p, p2, q, x, y, g, g2);
      HarmedIs(c, place, r, r2, s, g, g2);
    }
  }

  lemma BetweenParts(c: A.Tuning, votes: VoteRules, u: Unit, p: UnitPick, p2: UnitPick, x: real, y: real)
    requires Linking.ValidRules(c.link) && Between(c, votes, u, p, p2, x, y)
    ensures var tc, place := c.link.travel, (u.lat, u.lng);
            var a, b := Pairs.ObsAt(c, place, Alone(u, p)), Pairs.ObsAt(c, place, Together(u, p, p2));
            && Pairs.Separable(tc, a, b, x, y)
            && votes.unitVoteSec + (p2.t - p.t) <= Pairs.Lag(tc, x, y, a)
  {
    hide Pairs.Separable, Pairs.Lag, Pairs.ObsAt;
  }

  /** The votes before and after, as they are read. */
  lemma CastBoth(votes: VoteRules, u: Unit, p: UnitPick, p2: UnitPick, q: UnitPick, nElig: nat, adet: real,
                 g: seq<Vote>, g2: seq<Vote>)
    requires votes.unitVoteSec > 0.0 && Enough(votes, nElig) && Joins(votes, p, p2) && q.t - p2.t > votes.unitVoteSec
    requires VotesByRuns(votes, Holding(u, [p, q]), nElig, adet, g)
    requires VotesByRuns(votes, Holding(u, [p, p2, q]), nElig, adet, g2)
    ensures Pairs.ReadAs(g, (u.lat, u.lng), Alone(u, p), Alone(u, q))
    ensures Pairs.ReadAs(g2, (u.lat, u.lng), Together(u, p, p2), Alone(u, q))
  {
    hide RunVote, VotesByRuns, Enough, Quorum;
    CastAlone(votes, u, p, nElig, adet);
    CastAlone(votes, u, q, nElig, adet);
    CastTogether(votes, u, p, p2, nElig, adet);
    assert [p] + [q] == [p, q] && [p, p2] + [q] == [p, p2, q];
    TwoRuns(votes, u, [p], q, nElig, adet, g);
    TwoRuns(votes, u, [p, p2], q, nElig, adet, g2);
  }

  lemma BothLinked(c: A.Tuning, votes: VoteRules, u: Unit, p: UnitPick, p2: UnitPick, q: UnitPick, x: real, y: real,
                   g: seq<Vote>, g2: seq<Vote>)
    requires A.ValidTuning(c) && Linking.ValidRules(c.link) && Joins(votes, p, p2) && Between(c, votes, u, p, p2, x, y)
    requires q.sigma == p.sigma && q.t > p2.t
    requires q.t - p.t < Pairs.Lag(c.link.travel, x, y, Pairs.ObsAt(c, (u.lat, u.lng), Alone(u, p)))
                         + Linking.Tau(c.link, p.sigma)
    requires Pairs.ReadAs(g, (u.lat, u.lng), Alone(u, p), Alone(u, q))
    requires Pairs.ReadAs(g2, (u.lat, u.lng), Together(u, p, p2), Alone(u, q))
    ensures Linking.Linked(c.link, g[0], g[1]) && Linking.Linked(c.link, g2[0], g2[1])
  {
    TauNotNegative(c, p.sigma);
    TauNotNegative(c, (p.sigma + p2.sigma) / 2.0);
    var d := c.link.dist(u.lat, u.lng, u.lat, u.lng);
    QuotientNotNegative(d, c.link.travel.vs);
    hide Pairs.Separable, Pairs.Lag, Pairs.ObsAt, Linking.Tau, Linking.Slack, A.ValidTuning;
  }

  lemma TauNotNegative(c: A.Tuning, sigma: real)
    requires A.ValidTuning(c)
    ensures Linking.Tau(c.link, sigma) >= 0.0
  {
    var v := Vote(VoteKey(0, 0), 0.0, 0.0, 0.0, sigma, 1, 1, 0.0, {}, 0, 0.0, 0.0);
    A.TausPositive(c, 0.0, 0.0, [v]);
    hide Linking.Tau;
    assert A.AllObs(c, 0.0, 0.0, [v])[0].tau == Linking.Tau(c.link, sigma);
  }

  lemma QuotientNotNegative(n: real, d: real)
    requires n >= 0.0 && d > 0.0
    ensures n / d >= 0.0
  {
    var q := n / d;
    assert q * d == n;
    if q < 0.0 { ProductPositive(-q, d); }
  }

  lemma HarmedIs(c: A.Tuning, place: (real, real), r: A.Reading, r2: A.Reading, s: A.Reading, g: seq<Vote>,
                 g2: seq<Vote>)
    requires Linking.ValidRules(c.link) && Pairs.ReadAs(g, place, r, s) && Pairs.ReadAs(g2, place, r2, s)
    requires Linking.Linked(c.link, g[0], g[1]) && Linking.Linked(c.link, g2[0], g2[1])
    requires forall h, h2, cls ::
               Pairs.ReadAs(h, place, r, s) && Pairs.ReadAs(h2, place, r2, s) && A.ExtractionOf(c, h, cls) ==>
                 Pairs.Stale(c, h, h2, cls)
    ensures Harmed(c, g, g2)
  {
    hide Linking.Linked, A.ExtractionOf, Pairs.Stale;
  }

  // ---------------------------------------------------------------------
  // One such unit
  // ---------------------------------------------------------------------

  /** A simple tuning: slowness 1 and 1/2, and a growing function for the square root. */
  function Plain(): A.Tuning {
    A.Tuning(Linking.Rules(T.Config(2.0, 1.0, 6.0, 3, 0.0, z => z + 1.0), 1.0, 1.0, 100.0, (a, b, d, e) => 0.0),
             (a, b, d, e) => (0.0, 0.0))
  }

  lemma PlainValid()
    ensures var c := Plain(); A.ValidTuning(c) && Linking.ValidRules(c.link) && Pairs.LateS(c.link.travel)
  {
    var tc := Plain().link.travel;
    forall x, y, o ensures Pairs.Lag(tc, x, y, o) >= 0.0 {
      SquareNotNegative(x - o.x);
      SquareNotNegative(y - o.y);
      assert T.Hypo(tc, x, y, o) == Pairs.SlantSquared(tc, x, y, o) + 1.0;
    }
  }

  lemma SquareNotNegative(a: real)
    ensures a * a >= 0.0
  {
  }

  /** The node in the middle of the first grid is the unit's own place. */
  lemma PlainMiddle(o: T.Obs)
    ensures var tc := Plain().link.travel; Pairs.OnFirstGrid(tc, o, o.x, o.y) && Pairs.Lag(tc, o.x, o.y, o) == 18.5
  {
    var tc := Plain().link.travel;
    var half := Pairs.HalfWidth(tc);
    assert half == 21.0;
    assert L.GridAt(o.x, half, L.StepOf(tc, half), 1) == o.x && L.GridAt(o.y, half, L.StepOf(tc, half), 1) == o.y;
  }

  /**
   Two phones pick a P wave at the same time with deviations of 0.2001 s and 0.2003 s, so that the vote's deviation goes
   from 0.2001 s to 0.2002 s and both print as 0.200.
   */
  lemma SuchUnit() returns (c: A.Tuning, votes: VoteRules, u: Unit, before: seq<UnitPick>, later: seq<UnitPick>)
    ensures A.ValidTuning(c) && Linking.ValidRules(c.link) && InOrder(before) && InOrder(later) && before != later
    ensures Harms(c, votes, u, before, later, 2, 0.0)
  {
    c, votes := Plain(), VoteRules(2.0, 0.34, 18.0);
    u := Unit(0, Geo.Cell(0, 0), 0.0, 0.0, {"a", "b"}, 0.0, 0.0, 0.0, map[], []);
    var p := UnitPick("a", 1, 100.0, 0.2001, 0.0, 100.0, "s", false);
    var p2 := UnitPick("b", 1, 100.0, 0.2003, 0.0, 100.0, "s", false);
    PlainValid();
    PlainReadings(u, p, p2);
    PlainBetween(votes, u, p, p2);
    assert Enough(votes, 2) && Joins(votes, p, p2);
    hide *;
    var q := OneMorePhone(c, votes, u, p, p2, 2, 0.0, 0.0, 0.0);
    before, later := [p, q], [p, p2, q];
  }

  lemma PlainReadings(u: Unit, p: UnitPick, p2: UnitPick)
    requires p.t == p2.t && p.sigma == 0.2001 && p2.sigma == 0.2003
    ensures A.MarkOf(Alone(u, p)) == A.MarkOf(Together(u, p, p2))
    ensures Linking.Tau(Plain().link, p.sigma) != Linking.Tau(Plain().link, (p.sigma + p2.sigma) / 2.0)
  {
    PrintedAround(0.2001, 200);
    PrintedAround(0.2002, 200);
    hide Printed;
  }

  lemma PlainBetween(votes: VoteRules, u: Unit, p: UnitPick, p2: UnitPick)
    requires votes.unitVoteSec == 2.0 && p.t == p2.t && p.sigma == 0.2001 && p2.sigma == 0.2003
    ensures Between(Plain(), votes, u, p, p2, 0.0, 0.0)
  {
    PlainMiddle(Pairs.ObsAt(Plain(), (u.lat, u.lng), Alone(u, p)));
    hide Pairs.OnFirstGrid;
  }

  // ---------------------------------------------------------------------
  // Two ticks
  // ---------------------------------------------------------------------

  lemma SecondName(names: seq<nat>)
    requires A.Increasing(names) && |names| > 1
    ensures names[1] > 0
  {
    assert names[0] < names[1];
  }

  /** Two linked votes are one group. */
  lemma OneGroup(c: Linking.Rules, vs: seq<Vote>, rt: seq<nat>, names: seq<nat>, groups: seq<seq<Vote>>)
    requires Linking.ValidRules(c) && |vs| == 2 && Linking.Linked(c, vs[0], vs[1])
    requires Linking.Components(c, vs, rt) && A.Grouped(vs, rt, names, groups)
    ensures groups == [vs]
  {
    hide Linking.Linked, Linking.Connected;
    assert Linking.Adjacent(c, vs, 0, 1);
    Linking.ConnectedLink(c, vs, 0, 1);
    assert rt == [0, 0];
    assert 0 in names;
    if |names| > 1 { SecondName(names); }
    forall i | 0 <= i < |names| ensures names[i] == 0 { assert names[i] in names; }
    assert names == [0];
    LabelledAll(vs, rt, 0);
  }

  lemma FlattenOne<B>(l: seq<B>)
    ensures A.Flatten([l]) == l
  {
    assert [l][..0] == [];
  }

  /**
   The picks before and after in two consecutive ticks: the unit's votes are formed anew, the second association finds
   the first one's clusters in the cache, and none of the present votes' extractions has their sources.
   */
  method TwoTicks(c: A.Tuning, rules: VoteRules, u: Unit, before: seq<UnitPick>, later: seq<UnitPick>, nElig: nat,
                  adet: real)
    returns (votes: seq<Vote>, first: seq<A.Cluster>, second: seq<A.Cluster>)
    requires A.ValidTuning(c) && Linking.ValidRules(c.link) && InOrder(before) && InOrder(later)
    requires Harms(c, rules, u, before, later, nElig, adet)
    ensures VotesByRuns(rules, Holding(u, later), nElig, adet, votes)
    ensures |first| == 1 && second == first && !Pairs.SourcesKept(c, votes, second)
  {
    assert Holding(u, before).picks == before && Holding(u, later).picks == later;
    hide *;
    var g, runs := UnitVotes(rules, Holding(u, before), nElig, adet);
    var g2, runs2 := UnitVotes(rules, Holding(u, later), nElig, adet);
    HarmedBy(c, rules, u, before, later, nElig, adet, g, g2);
    first, second := AssociateTwice(c, g, g2);
    votes := g2;
  }

  method AssociateTwice(c: A.Tuning, g: seq<Vote>, g2: seq<Vote>)
    returns (first: seq<A.Cluster>, second: seq<A.Cluster>)
    requires A.ValidTuning(c) && Linking.ValidRules(c.link) && Harmed(c, g, g2)
    ensures |first| == 1 && second == first && !Pairs.SourcesKept(c, g2, second)
  {
    ghost var at: UnitKey -> (real, real) := _ => (g[0].lat, g[0].lng);
    ghost var seen := A.Readings(g) + A.Readings(g2);
    assert A.Placed(at, g) && A.Placed(at, g2) && A.Within(seen, g) && A.Within(seen, g2);
    assert |g| == |g2| == 2 && A.CacheOk(c, at, seen, map[]);
    hide *;
    var cache, cache2;
    ghost var rt, names, groups, lists, rt2, names2, groups2, lists2;
    first, cache, rt, names, groups, lists := A.Associate(c, g, map[], at, seen);
    second, cache2, rt2, names2, groups2, lists2 := A.Associate(c, g2, cache, at, seen);
    FirstTime(c, seen, g, g2, first, cache, rt, names, groups, lists);
    SecondTime(c, seen, g, g2, first, second, cache, cache2, rt2, names2, groups2, lists2);
  }

  lemma FirstTime(c: A.Tuning, seen: set<A.Reading>, g: seq<Vote>, g2: seq<Vote>, out: seq<A.Cluster>,
                  cache: map<seq<A.Mark>, seq<A.Cluster>>, rt: seq<nat>, names: seq<nat>, groups: seq<seq<Vote>>,
                  lists: seq<seq<A.Cluster>>)
    requires Linking.ValidRules(c.link) && Harmed(c, g, g2) && A.Associated(c, seen, g, out, rt, names, groups, lists)
    requires A.MissesExtracted(c, {}, groups, lists) && A.ListsRecalled(map[], groups, lists, cache)
    ensures Pairs.Stale(c, g, g2, out) && A.Signature(g) in cache && cache[A.Signature(g)] == out
  {
    hide Linking.Components, A.Grouped, A.AllSolved, A.ExtractionOf, Pairs.Stale, A.Signature, Linking.Linked;
    OneGroup(c.link, g, rt, names, groups);
    assert groups[0] == g && groups[..0] == [];
    assert A.Signatures([]) == {};
    assert lists == [lists[0]];
    FlattenOne(lists[0]);
  }

  lemma SecondTime(c: A.Tuning, seen: set<A.Reading>, g: seq<Vote>, g2: seq<Vote>, first: seq<A.Cluster>,
                   out: seq<A.Cluster>, cache: map<seq<A.Mark>, seq<A.Cluster>>,
                   cache2: map<seq<A.Mark>, seq<A.Cluster>>, rt: seq<nat>, names: seq<nat>, groups: seq<seq<Vote>>,
                   lists: seq<seq<A.Cluster>>)
    requires Linking.ValidRules(c.link) && Harmed(c, g, g2) && A.Associated(c, seen, g2, out, rt, names, groups, lists)
    requires Pairs.Stale(c, g, g2, first) && A.Signature(g) in cache && cache[A.Signature(g)] == first
    requires A.ListsRecalled(cache, groups, lists, cache2)
    ensures |first| == 1 && out == first && !Pairs.SourcesKept(c, g2, out)
  {
    hide Linking.Components, A.Grouped, A.AllSolved, A.ExtractionOf, A.Signature, Linking.Linked, Pairs.SourcesKept;
    OneGroup(c.link, g2, rt, names, groups);
    assert groups[0] == g2;
    assert lists == [lists[0]];
    FlattenOne(lists[0]);
  }
}
