/** Independence units: their sorted picks, and the votes their picks form. */
module Votes {
  import opened Basics
  import opened Medians
  import Geo
  import S = Sorting

  type UnitKey = Geo.uint64

  type Device = string

  /** A vote's identity: its unit, and the whole second of its first pick. */
  datatype VoteKey = VoteKey(unit: UnitKey, second: int)

  datatype UnitPick = UnitPick(dev: Device, seqNo: nat, t: real, sigma: real, pga: real, arrived: real, source: string,
                               established: bool)

  datatype Unit = Unit(key: UnitKey, cell: Geo.Cell, lat: real, lng: real, members: set<Device>, votes: real,
                       exposure: real, lastCounted: real, seen: map<VoteKey, real>, picks: seq<UnitPick>)

  datatype Vote = Vote(key: VoteKey, lat: real, lng: real, t: real, sigma: real, devices: nat, eligible: nat, pga: real,
                       sources: set<string>, established: nat, lastArrival: real, adet: real)

  /** The part of the tuning that forms votes. */
  datatype VoteRules = VoteRules(unitVoteSec: real, unitMinFraction: real, assocWindow: real)

  /** One vote per second at most can start in a unit; picks live long enough to be consumed safely. */
  predicate ValidRules(c: VoteRules) { c.unitVoteSec >= 1.0 && c.assocWindow >= 18.0 }

  // ---------------------------------------------------------------------
  // Pick lists
  // ---------------------------------------------------------------------

  ghost predicate InOrder(ps: seq<UnitPick>) { forall i, j :: 0 <= i < j < |ps| ==> ps[i].t <= ps[j].t }

  ghost predicate NoRepeats(ps: seq<UnitPick>) {
    forall i, j :: 0 <= i < j < |ps| ==> !(ps[i].dev == ps[j].dev && ps[i].seqNo == ps[j].seqNo)
  }

  /** The list of a unit: in time order, no device's pick number twice. */
  ghost predicate GoodPicks(ps: seq<UnitPick>) { InOrder(ps) && NoRepeats(ps) }

  /** The new pick repeats a known one. */
  predicate Duplicates(q: UnitPick, p: UnitPick) { q.dev == p.dev && (q.seqNo == p.seqNo || Abs(q.t - p.t) < 0.000001) }

  /** Binary search: the first position whose pick is later than t. */
  method FirstAfter(ps: seq<UnitPick>, t: real) returns (i: nat)
    requires InOrder(ps)
    ensures i <= |ps|
    ensures forall k :: 0 <= k < i ==> ps[k].t <= t
    ensures forall k :: i <= k < |ps| ==> ps[k].t > t
  {
    var lo, hi := 0, |ps|;
    while lo < hi
      invariant 0 <= lo <= hi <= |ps|
      invariant forall k :: 0 <= k < lo ==> ps[k].t <= t
      invariant forall k :: hi <= k < |ps| ==> ps[k].t > t
    {
      var mid := (lo + hi) / 2;
      if !(ps[mid].t > t) {
        lo := mid + 1;
      } else {
        hi := mid;
      }
    }
    return lo;
  }

  /** Puts a new pick in its place unless it duplicates one. */
  method InsertPick(ps: seq<UnitPick>, p: UnitPick) returns (out: seq<UnitPick>, added: bool)
    requires GoodPicks(ps)
    ensures GoodPicks(out)
    ensures added <==> forall q :: q in ps ==> !Duplicates(q, p)
    ensures !added ==> out == ps
    ensures added ==> multiset(out) == multiset(ps) + multiset{p}
  {
    for i := 0 to |ps|
      invariant forall k :: 0 <= k < i ==> !Duplicates(ps[k], p)
    {
      if Duplicates(ps[i], p) {
        assert ps[i] in ps;
        return ps, false;
      }
    }
    forall q | q in ps ensures !Duplicates(q, p) {}
    hide Duplicates, GoodPicks, Inserted;
    var i := FirstAfter(ps, p.t) by { GoodInOrder(ps); }
    InsertedGood(ps, p, i);
    return Inserted(ps, p, i), true;
  }

  lemma GoodInOrder(ps: seq<UnitPick>)
    requires GoodPicks(ps)
    ensures InOrder(ps)
  {
  }

  /** Putting p at position i keeps everything else. */
  function Inserted(ps: seq<UnitPick>, p: UnitPick, i: nat): (out: seq<UnitPick>)
    requires i <= |ps|
    ensures |out| == |ps| + 1
    ensures forall k :: 0 <= k < |out| ==> out[k] == if k < i then ps[k] else if k == i then p else ps[k - 1]
    ensures multiset(out) == multiset(ps) + multiset{p}
  {
    assert ps == ps[..i] + ps[i..];
    ps[..i] + [p] + ps[i..]
  }

  lemma InsertedGood(ps: seq<UnitPick>, p: UnitPick, i: nat)
    requires GoodPicks(ps) && i <= |ps| && forall q :: q in ps ==> !Duplicates(q, p)
    requires (forall k :: 0 <= k < i ==> ps[k].t <= p.t) && (forall k :: i <= k < |ps| ==> ps[k].t > p.t)
    ensures GoodPicks(Inserted(ps, p, i))
  {
    var out := Inserted(ps, p, i);
    forall k | 0 <= k < |ps| ensures !(ps[k].dev == p.dev && ps[k].seqNo == p.seqNo) { assert ps[k] in ps; }
    hide Duplicates;
    assert InOrder(out);
    assert NoRepeats(out);
  }

  function Without(ps: seq<UnitPick>, i: nat): seq<UnitPick>
    requires i < |ps|
  {
    ps[..i] + ps[i + 1..]
  }

  /** The picks of everyone else, in order. */
  function NotOf(ps: seq<UnitPick>, dev: Device): (r: seq<UnitPick>)
    ensures forall p :: p in r <==> p in ps && p.dev != dev
  {
    if ps == [] then []
    else
      assert ps == ps[..|ps| - 1] + [ps[|ps| - 1]];
      NotOf(ps[..|ps| - 1], dev) + if ps[|ps| - 1].dev != dev then [ps[|ps| - 1]] else []
  }

  lemma {:induction false} NotOfGood(ps: seq<UnitPick>, dev: Device)
    requires GoodPicks(ps)
    ensures GoodPicks(NotOf(ps, dev))
  {
    if ps != [] {
      var n := |ps| - 1;
      NotOfGood(ps[..n], dev);
      var r := NotOf(ps[..n], dev);
      forall i | 0 <= i < |r|
        ensures r[i].t <= ps[n].t && !(r[i].dev == ps[n].dev && r[i].seqNo == ps[n].seqNo)
      {
        assert r[i] in ps[..n];
      }
    }
  }

  /** In-place filtering of one device's picks. */
  method DropDevice(ps: seq<UnitPick>, dev: Device) returns (kept: seq<UnitPick>)
    requires GoodPicks(ps)
    ensures kept == NotOf(ps, dev) && GoodPicks(kept)
  {
    kept := [];
    for i := 0 to |ps|
      invariant kept == NotOf(ps[..i], dev)
    {
      assert ps[..i + 1][..i] == ps[..i];
      if ps[i].dev != dev { kept := kept + [ps[i]]; }
    }
    assert ps[..|ps|] == ps;
    NotOfGood(ps, dev);
  }

  /** Forgets the picks before the cut: the list is in order, so they are a prefix. */
  method TrimPicks(ps: seq<UnitPick>, cut: real) returns (kept: seq<UnitPick>)
    requires GoodPicks(ps)
    ensures GoodPicks(kept)
    ensures |kept| <= |ps| && kept == ps[|ps| - |kept|..]
    ensures forall p :: p in kept <==> p in ps && p.t >= cut
  {
    var i := 0;
    while i < |ps| && ps[i].t < cut
      invariant i <= |ps| && forall k :: 0 <= k < i ==> ps[k].t < cut
    {
      i := i + 1;
    }
    SuffixGood(ps, i, cut);
    return ps[i..];
  }

  lemma SuffixGood(ps: seq<UnitPick>, i: nat, cut: real)
    requires GoodPicks(ps) && i <= |ps|
    requires (forall k :: 0 <= k < i ==> ps[k].t < cut) && (i < |ps| ==> ps[i].t >= cut)
    ensures GoodPicks(ps[i..])
    ensures forall p :: p in ps[i..] <==> p in ps && p.t >= cut
  {
    var kept := ps[i..];
    forall p | p in ps && p.t >= cut ensures p in kept {
      var k :| 0 <= k < |ps| && ps[k] == p;
      assert kept[k - i] == p;
    }
    forall p | p in kept ensures p.t >= cut {
      var k :| 0 <= k < |kept| && kept[k] == p;
      assert ps[i].t <= ps[i + k].t;
    }
  }

  // ---------------------------------------------------------------------
  // Runs
  // ---------------------------------------------------------------------

  /** Picks in time order, each within the gap of the one before. */
  ghost predicate Run(ps: seq<UnitPick>, gap: real) {
    ps != [] && forall i :: 0 < i < |ps| ==> 0.0 <= ps[i].t - ps[i - 1].t <= gap
  }

  lemma {:induction false} RunInOrder(ps: seq<UnitPick>, gap: real)
    requires Run(ps, gap)
    ensures InOrder(ps)
  {
    if |ps| > 1 {
      var n := |ps| - 1;
      RunInOrder(ps[..n], gap);
      forall i | 0 <= i < n ensures ps[i].t <= ps[n].t { assert ps[..n][i].t <= ps[..n][n - 1].t || i == n - 1; }
    }
  }

  function Concat(rs: seq<seq<UnitPick>>): seq<UnitPick> {
    if rs == [] then [] else Concat(rs[..|rs| - 1]) + rs[|rs| - 1]
  }

  /** The maximal runs of a pick list: together the list, none joinable with the next. */
  ghost predicate MaximalRuns(rs: seq<seq<UnitPick>>, ps: seq<UnitPick>, gap: real) {
    && Concat(rs) == ps
    && (forall i :: 0 <= i < |rs| ==> Run(rs[i], gap))
    && (forall i :: 0 < i < |rs| ==> Apart(rs[i - 1], rs[i], gap))
  }

  ghost predicate Apart(a: seq<UnitPick>, b: seq<UnitPick>, gap: real) {
    a != [] && b != [] && b[0].t - a[|a| - 1].t > gap
  }

  /** The last runs of two splits are equally long: where one starts, the other cannot go on. */
  lemma LastRunLonger(rs: seq<seq<UnitPick>>, ss: seq<seq<UnitPick>>, ps: seq<UnitPick>, gap: real)
    requires MaximalRuns(rs, ps, gap) && MaximalRuns(ss, ps, gap) && rs != [] && ss != []
    ensures |rs[|rs| - 1]| >= |ss[|ss| - 1]|
  {
    var r, s := rs[|rs| - 1], ss[|ss| - 1];
    assert Run(r, gap) && Run(s, gap);
    if |r| < |s| {
      InsideSuffix(Concat(rs[..|rs| - 1]), r, Concat(ss[..|ss| - 1]), s);
      LastOfFront(rs, gap);
    }
  }

  lemma InsideSuffix<A>(front: seq<A>, r: seq<A>, front2: seq<A>, s: seq<A>)
    requires front + r == front2 + s && 0 < |r| < |s|
    ensures front != [] && r[0] == s[|s| - |r|] && front[|front| - 1] == s[|s| - |r| - 1]
  {
    var all, k := front + r, |front|;
    assert all[k] == (front2 + s)[k] && all[k - 1] == (front2 + s)[k - 1];
  }

  lemma LastOfFront(rs: seq<seq<UnitPick>>, gap: real)
    requires rs != [] && (forall i :: 0 < i < |rs| ==> Apart(rs[i - 1], rs[i], gap)) && Concat(rs[..|rs| - 1]) != []
    ensures var front := Concat(rs[..|rs| - 1]); rs[|rs| - 1] != [] && rs[|rs| - 1][0].t - front[|front| - 1].t > gap
  {
    var n := |rs| - 1;
    assert Apart(rs[n - 1], rs[n], gap);
    assert rs[..n][..n - 1] == rs[..n - 1] && rs[..n][n - 1] == rs[n - 1];
  }

  /** A pick list splits into maximal runs in one way only. */
  lemma {:induction false} RunsUnique(rs: seq<seq<UnitPick>>, ss: seq<seq<UnitPick>>, ps: seq<UnitPick>, gap: real)
    requires MaximalRuns(rs, ps, gap) && MaximalRuns(ss, ps, gap)
    ensures rs == ss
    decreases |rs|
  {
    hide Run, Apart;
    if rs == [] || ss == [] {
      NoPicksNoRuns(rs, ps, gap);
      NoPicksNoRuns(ss, ps, gap);
    } else {
      var n, m := |rs| - 1, |ss| - 1;
      LastRunLonger(rs, ss, ps, gap);
      LastRunLonger(ss, rs, ps, gap);
      var k := |ps| - |rs[n]|;
      assert ps[..k] == Concat(rs[..n]) == Concat(ss[..m]) && ps[k..] == rs[n] == ss[m];
      RunsUnique(rs[..n], ss[..m], ps[..k], gap);
      assert rs == rs[..n] + [rs[n]] && ss == ss[..m] + [ss[m]];
    }
  }

  lemma NoPicksNoRuns(rs: seq<seq<UnitPick>>, ps: seq<UnitPick>, gap: real)
    requires MaximalRuns(rs, ps, gap)
    ensures rs == [] <==> ps == []
  {
    if rs != [] { assert Run(rs[|rs| - 1], gap); }
  }

  // ---------------------------------------------------------------------
  // One run's vote
  // ---------------------------------------------------------------------

  function Devs(run: seq<UnitPick>): set<Device> { set p | p in run :: p.dev }

  /** Each device's first pick of the run, in the order they appear. */
  function Leads(run: seq<UnitPick>): (r: seq<UnitPick>)
    ensures run != [] ==> r != []
  {
    if run == [] then []
    else
      var rest, p := run[..|run| - 1], run[|run| - 1];
      if |run| > 1 && p.dev in Devs(rest) then Leads(rest) else Leads(rest) + [p]
  }

  lemma {:induction false} LeadsWithin(run: seq<UnitPick>)
    ensures forall p :: p in Leads(run) ==> p in run
  {
    if run != [] {
      LeadsWithin(run[..|run| - 1]);
      hide Devs;
    }
  }

  ghost predicate DistinctDevs(ps: seq<UnitPick>) { forall i, j :: 0 <= i < j < |ps| ==> ps[i].dev != ps[j].dev }

  lemma DevsAppend(ps: seq<UnitPick>, p: UnitPick)
    ensures Devs(ps + [p]) == Devs(ps) + {p.dev}
  {
    forall d | d in Devs(ps) ensures d in Devs(ps + [p]) {
      var q :| q in ps && q.dev == d;
      assert q in ps + [p];
    }
    assert p in ps + [p];
  }

  lemma DistinctAppend(ps: seq<UnitPick>, p: UnitPick)
    requires DistinctDevs(ps) && p.dev !in Devs(ps)
    ensures DistinctDevs(ps + [p])
  {
    forall i | 0 <= i < |ps| ensures ps[i].dev != p.dev { assert ps[i] in ps; }
  }

  /** One lead per device, and no device left out. */
  ghost predicate OnePerDevice(ls: seq<UnitPick>, run: seq<UnitPick>) {
    Devs(ls) == Devs(run) && |ls| == |Devs(run)| && DistinctDevs(ls)
  }

  lemma OnePerDeviceAppend(ls: seq<UnitPick>, rest: seq<UnitPick>, p: UnitPick)
    requires OnePerDevice(ls, rest)
    ensures OnePerDevice(if p.dev in Devs(rest) then ls else ls + [p], rest + [p])
  {
    DevsAppend(rest, p);
    DevsAppend(ls, p);
    if p.dev !in Devs(rest) { DistinctAppend(ls, p); }
    hide Devs, DistinctDevs;
    if p.dev in Devs(rest) { assert Devs(rest) + {p.dev} == Devs(rest); }
  }

  lemma NoDevs()
    ensures Devs([]) == {}
  {
  }

  lemma LeadsAppend(rest: seq<UnitPick>, p: UnitPick)
    ensures Leads(rest + [p]) == if p.dev in Devs(rest) then Leads(rest) else Leads(rest) + [p]
  {
    assert (rest + [p])[..|rest|] == rest;
    NoDevs();
    hide Devs;
  }

  lemma NoLeads()
    ensures OnePerDevice(Leads([]), [])
  {
    NoDevs();
  }

  /** A run's leads are one pick for each of its devices. */
  lemma {:induction false} LeadsAreDevices(run: seq<UnitPick>)
    ensures OnePerDevice(Leads(run), run)
  {
    hide Devs, OnePerDevice, Leads;
    if run == [] {
      NoLeads();
    } else {
      var rest, p := run[..|run| - 1], run[|run| - 1];
      LeadsAreDevices(rest);
      OnePerDeviceAppend(Leads(rest), rest, p);
      LeadsAppend(rest, p);
      assert run == rest + [p];
    }
  }

  function Times(ps: seq<UnitPick>): (r: seq<real>)
    ensures |r| == |ps|
  {
    seq(|ps|, i requires 0 <= i < |ps| => ps[i].t)
  }

  function Sigmas(ps: seq<UnitPick>): (r: seq<real>)
    ensures |r| == |ps|
  {
    seq(|ps|, i requires 0 <= i < |ps| => ps[i].sigma)
  }

  function Peaks(ps: seq<UnitPick>): (r: seq<real>)
    ensures |r| == |ps|
  {
    seq(|ps|, i requires 0 <= i < |ps| => ps[i].pga)
  }

  function Sources(ps: seq<UnitPick>): set<string> { set p | p in ps :: p.source }

  function EstablishedCount(ps: seq<UnitPick>): nat {
    if ps == [] then 0 else EstablishedCount(ps[..|ps| - 1]) + if ps[|ps| - 1].established then 1 else 0
  }

  function LastArrival(ps: seq<UnitPick>): real {
    if ps == [] then 0.0
    else
      var a := LastArrival(ps[..|ps| - 1]);
      if ps[|ps| - 1].arrived > a then ps[|ps| - 1].arrived else a
  }

  /** How many devices must have picked, given how many count as listening. */
  function Quorum(c: VoteRules, n: nat): int {
    var need := Ceil(c.unitMinFraction * n as real);
    if need < 1 then 1 else need
  }

  function Listening(nElig: nat, devices: nat): nat { if devices > nElig then devices else nElig }

  /** The vote of a run: one per device, the medians of the devices' first picks, and only if a quorum picked. */
  function RunVote(c: VoteRules, u: Unit, run: seq<UnitPick>, nElig: nat, adet: real): Option<Vote>
    requires run != []
  {
    var ls, k := Leads(run), |Devs(run)|;
    var n := Listening(nElig, k);
    if k < Quorum(c, n) then None
    else Some(Vote(VoteKey(u.key, run[0].t.Floor), u.lat, u.lng, Median(Times(ls)), Median(Sigmas(ls)), k, n,
                   Median(Peaks(ls)), Sources(ls), EstablishedCount(ls), LastArrival(ls), adet))
  }

  lemma EarlierInRun(run: seq<UnitPick>, i: nat, q: UnitPick)
    requires InOrder(run) && i < |run| && q in run[..i]
    ensures q.t <= run[i].t
  {
    var k :| 0 <= k < i && run[k] == q;
  }

  /** The map holds the devices' leads, listed by the order. */
  ghost predicate Collected(first: map<Device, UnitPick>, order: seq<Device>, ls: seq<UnitPick>) {
    |order| == |ls| && forall j :: 0 <= j < |order| ==>
      order[j] == ls[j].dev && order[j] in first && first[order[j]] == ls[j]
  }

  lemma CollectNew(first: map<Device, UnitPick>, order: seq<Device>, ls: seq<UnitPick>, p: UnitPick)
    requires Collected(first, order, ls) && p.dev !in first
    ensures Collected(first[p.dev := p], order + [p.dev], ls + [p])
  {
  }

  /** The state of the collection after some picks. */
  ghost predicate CollectedFrom(first: map<Device, UnitPick>, order: seq<Device>, picks: seq<UnitPick>) {
    && first.Keys == Devs(picks)
    && Collected(first, order, Leads(picks))
    && forall d :: d in first ==> first[d] in picks
  }

  lemma CollectStep(first: map<Device, UnitPick>, order: seq<Device>, rest: seq<UnitPick>, p: UnitPick)
    requires CollectedFrom(first, order, rest)
    ensures if p.dev in first then CollectedFrom(first, order, rest + [p])
            else CollectedFrom(first[p.dev := p], order + [p.dev], rest + [p])
  {
    hide Leads, Devs, Collected;
    LeadsAppend(rest, p);
    DevsAppend(rest, p);
    if p.dev !in first {
      CollectNew(first, order, Leads(rest), p);
    } else {
      assert Devs(rest) + {p.dev} == Devs(rest);
    }
  }

  /** First picks per device, by a map and an order list. */
  method Collect(run: seq<UnitPick>) returns (first: map<Device, UnitPick>, order: seq<Device>)
    requires run != [] && InOrder(run)
    ensures Collected(first, order, Leads(run)) && |first| == |Devs(run)|
  {
    hide InOrder, Collected, Leads, Devs;
    first, order := map[], [];
    NoneCollected();
    for i := 0 to |run|
      invariant CollectedFrom(first, order, run[..i])
    {
      var p := run[i];
      assert run[..i + 1] == run[..i] + [p];
      CollectStep(first, order, run[..i], p);
      if p.dev in first { EarlierInRun(run, i, first[p.dev]); }
      if p.dev !in first || p.t < first[p.dev].t {
        if p.dev !in first { order := order + [p.dev]; }
        first := first[p.dev := p];
      }
    }
    assert run[..|run|] == run;
    assert |first| == |first.Keys|;
  }

  lemma NoneCollected()
    ensures CollectedFrom(map[], [], [])
  {
    assert Devs([]) == {} && Leads([]) == [];
  }

  lemma SourcesAppend(ps: seq<UnitPick>, p: UnitPick)
    ensures Sources(ps + [p]) == Sources(ps) + {p.source}
  {
    forall x | x in Sources(ps) ensures x in Sources(ps + [p]) {
      var q :| q in ps && q.source == x;
      assert q in ps + [p];
    }
    assert p in ps + [p];
  }

  /** Everything a vote adds up over its leads. */
  ghost predicate Summed(ls: seq<UnitPick>, ts: seq<real>, ss: seq<real>, ps: seq<real>, srcs: set<string>, est: nat,
                         last: real)
  {
    ts == Times(ls) && ss == Sigmas(ls) && ps == Peaks(ls) && srcs == Sources(ls)
    && est == EstablishedCount(ls) && last == LastArrival(ls)
  }

  lemma SummedAppend(ls: seq<UnitPick>, p: UnitPick, ts: seq<real>, ss: seq<real>, ps: seq<real>, srcs: set<string>,
                     est: nat, last: real)
    requires Summed(ls, ts, ss, ps, srcs, est, last)
    ensures Summed(ls + [p], ts + [p.t], ss + [p.sigma], ps + [p.pga], srcs + {p.source},
                   if p.established then est + 1 else est, if p.arrived > last then p.arrived else last)
  {
    assert (ls + [p])[..|ls|] == ls;
    SourcesAppend(ls, p);
    hide Sources;
  }

  method Summarise(first: map<Device, UnitPick>, order: seq<Device>, ghost ls: seq<UnitPick>)
    returns (ts: seq<real>, ss: seq<real>, ps: seq<real>, srcs: set<string>, est: nat, last: real)
    requires Collected(first, order, ls)
    ensures Summed(ls, ts, ss, ps, srcs, est, last)
  {
    ts, ss, ps, srcs, est, last := [], [], [], {}, 0, 0.0;
    assert Sources([]) == {};
    assert Summed(ls[..0], ts, ss, ps, srcs, est, last);
    hide Summed;
    for i := 0 to |order|
      invariant Summed(ls[..i], ts, ss, ps, srcs, est, last)
    {
      var p := first[order[i]];
      assert ls[..i + 1] == ls[..i] + [p];
      SummedAppend(ls[..i], p, ts, ss, ps, srcs, est, last);
      ts, ss, ps := ts + [p.t], ss + [p.sigma], ps + [p.pga];
      srcs := srcs + {p.source};
      if p.established { est := est + 1; }
      if p.arrived > last { last := p.arrived; }
    }
    assert ls[..|order|] == ls;
  }

  /** Turns one run into its vote, if it has a quorum. */
  method Flush(c: VoteRules, u: Unit, run: seq<UnitPick>, nElig: nat, adet: real) returns (v: Option<Vote>)
    requires run != [] && InOrder(run)
    ensures v == RunVote(c, u, run, nElig, adet)
  {
    hide Leads, Devs, InOrder, Median, Sources, Times, Sigmas, Peaks, EstablishedCount, LastArrival;
    var first, order := Collect(run);
    var k := |first|;
    var n := if k > nElig then k else nElig;
    var need := Ceil(c.unitMinFraction * n as real);
    if need < 1 { need := 1; }
    if k < need { return None; }
    var ts, ss, ps, srcs, est, last := Summarise(first, order, Leads(run));
    return Some(Vote(VoteKey(u.key, run[0].t.Floor), u.lat, u.lng, Median(ts), Median(ss), k, n, Median(ps), srcs, est,
                     last, adet));
  }

  /** A vote counts each device once, never more devices than listen, and its time lies inside the run. */
  lemma VoteFacts(c: VoteRules, u: Unit, run: seq<UnitPick>, nElig: nat, adet: real)
    requires run != [] && InOrder(run) && RunVote(c, u, run, nElig, adet).Some?
    ensures var v := RunVote(c, u, run, nElig, adet).value;
            v.devices == |Devs(run)| && 1 <= v.devices <= v.eligible && v.devices >= Quorum(c, v.eligible)
            && run[0].t <= v.t <= run[|run| - 1].t && v.key.second as real <= v.t
  {
    hide Median, Leads, Quorum;
    var ls := Leads(run);
    assert run[0].dev in Devs(run);
    forall x | x in Times(ls) ensures run[0].t <= x <= run[|run| - 1].t {
      var i :| 0 <= i < |ls| && Times(ls)[i] == x;
      LeadsWithin(run);
      assert ls[i] in run;
      var j :| 0 <= j < |run| && run[j] == ls[i];
    }
    MedianBounds(Times(ls), run[0].t, run[|run| - 1].t);
  }

  // ---------------------------------------------------------------------
  // A unit's votes
  // ---------------------------------------------------------------------

  ghost predicate NonEmpty(runs: seq<seq<UnitPick>>) { forall i :: 0 <= i < |runs| ==> runs[i] != [] }

  /** The votes of the runs that have one, in order. */
  ghost function VotesOf(c: VoteRules, u: Unit, runs: seq<seq<UnitPick>>, nElig: nat, adet: real): (vs: seq<Vote>)
    requires NonEmpty(runs)
    ensures |vs| <= |runs|
  {
    if runs == [] then []
    else
      var n := |runs| - 1;
      var v := RunVote(c, u, runs[n], nElig, adet);
      VotesOf(c, u, runs[..n], nElig, adet) + if v.Some? then [v.value] else []
  }

  /** The runs found in the picks before position i. */
  ghost predicate RunsBefore(runs: seq<seq<UnitPick>>, ps: seq<UnitPick>, i: nat, gap: real)
    requires i <= |ps|
  {
    MaximalRuns(runs, ps[..i], gap) && (i < |ps| && runs != [] ==> Apart(runs[|runs| - 1], ps[i..], gap))
  }

  lemma ConcatAppend(runs: seq<seq<UnitPick>>, run: seq<UnitPick>)
    ensures Concat(runs + [run]) == Concat(runs) + run
  {
    assert (runs + [run])[..|runs|] == runs;
  }

  lemma ApartFrom(a: seq<UnitPick>, b: seq<UnitPick>, r: seq<UnitPick>, gap: real)
    requires a != [] ==> Apart(a, b, gap)
    requires b != [] && r != [] && r[0] == b[0]
    ensures a != [] ==> Apart(a, r, gap)
  {
  }

  lemma RunsAppend(runs: seq<seq<UnitPick>>, ps: seq<UnitPick>, run: seq<UnitPick>, gap: real)
    requires MaximalRuns(runs, ps, gap) && Run(run, gap) && (runs != [] ==> Apart(runs[|runs| - 1], run, gap))
    ensures MaximalRuns(runs + [run], ps + run, gap)
  {
    hide Run, Apart, Concat;
    ConcatAppend(runs, run);
    var more := runs + [run];
    forall k | 0 < k < |more| ensures Apart(more[k - 1], more[k], gap) {
      if k < |runs| { assert more[k - 1] == runs[k - 1] && more[k] == runs[k]; }
    }
  }

  lemma RunFound(runs: seq<seq<UnitPick>>, ps: seq<UnitPick>, start: nat, i: nat, gap: real)
    requires start < i <= |ps| && RunsBefore(runs, ps, start, gap) && Run(ps[start..i], gap)
    requires i < |ps| ==> ps[i].t - ps[i - 1].t > gap
    ensures RunsBefore(runs + [ps[start..i]], ps, i, gap)
  {
    hide Run, MaximalRuns;
    var run := ps[start..i];
    assert ps[..i] == ps[..start] + run;
    if runs != [] { ApartFrom(runs[|runs| - 1], ps[start..], run, gap); }
    RunsAppend(runs, ps[..start], run, gap);
    if i < |ps| {
      assert run[|run| - 1] == ps[i - 1] && ps[i..][0] == ps[i];
      assert Apart(run, ps[i..], gap);
    }
  }

  lemma RunGrows(ps: seq<UnitPick>, start: nat, i: nat, gap: real)
    requires start < i < |ps| && InOrder(ps) && Run(ps[start..i], gap) && ps[i].t - ps[i - 1].t <= gap
    ensures Run(ps[start..i + 1], gap)
  {
    var r := ps[start..i + 1];
    forall k | 0 < k < |r| ensures 0.0 <= r[k].t - r[k - 1].t <= gap {
      if k < i - start { assert r[k] == ps[start..i][k] && r[k - 1] == ps[start..i][k - 1]; }
    }
  }

  lemma VotesAppend(c: VoteRules, u: Unit, runs: seq<seq<UnitPick>>, run: seq<UnitPick>, nElig: nat, adet: real)
    requires NonEmpty(runs) && run != []
    ensures NonEmpty(runs + [run])
    ensures VotesOf(c, u, runs + [run], nElig, adet)
            == VotesOf(c, u, runs, nElig, adet)
               + if RunVote(c, u, run, nElig, adet).Some? then [RunVote(c, u, run, nElig, adet).value] else []
  {
    hide RunVote;
    assert (runs + [run])[..|runs|] == runs;
  }

  /** The votes of the picks' split into maximal runs, of which there is only one. */
  ghost predicate VotesByRuns(c: VoteRules, u: Unit, nElig: nat, adet: real, out: seq<Vote>) {
    exists runs :: MaximalRuns(runs, u.picks, c.unitVoteSec) && NonEmpty(runs)
      && out == VotesOf(c, u, runs, nElig, adet)
  }

  /** Splits the picks where they are more than the gap apart; each maximal run gives at most one vote. */
  method UnitVotes(c: VoteRules, u: Unit, nElig: nat, adet: real)
    returns (out: seq<Vote>, ghost runs: seq<seq<UnitPick>>)
    requires InOrder(u.picks)
    ensures VotesByRuns(c, u, nElig, adet, out)
    ensures MaximalRuns(runs, u.picks, c.unitVoteSec) && NonEmpty(runs)
    ensures out == VotesOf(c, u, runs, nElig, adet)
  {
    hide RunVote, RunsBefore, MaximalRuns, Run, InOrder, VotesOf, NonEmpty;
    var ps, start := u.picks, 0;
    out, runs := [], [];
    NoRuns(c, u, nElig, adet);
    if ps == [] { return; }
    RunOfOne(ps, 0, c.unitVoteSec);
    for i := 1 to |ps| + 1
      invariant start < i <= |ps| || start == |ps| == i - 1
      invariant start < |ps| ==> Run(ps[start..i], c.unitVoteSec)
      invariant RunsBefore(runs, ps, start, c.unitVoteSec)
      invariant NonEmpty(runs) && out == VotesOf(c, u, runs, nElig, adet)
    {
      if i == |ps| || ps[i].t - ps[i - 1].t > c.unitVoteSec {
        ghost var run := ps[start..i];
        RunInOrder(run, c.unitVoteSec);
        var v := Flush(c, u, ps[start..i], nElig, adet);
        RunFound(runs, ps, start, i, c.unitVoteSec);
        VotesAppend(c, u, runs, run, nElig, adet);
        if v.Some? { out := out + [v.value]; }
        runs := runs + [run];
        start := i;
        if i < |ps| { RunOfOne(ps, i, c.unitVoteSec); }
      } else {
        RunGrows(ps, start, i, c.unitVoteSec);
      }
    }
    RunsComplete(runs, ps, c.unitVoteSec);
  }

  lemma NoRuns(c: VoteRules, u: Unit, nElig: nat, adet: real)
    ensures NonEmpty([]) && VotesOf(c, u, [], nElig, adet) == [] && MaximalRuns([], [], c.unitVoteSec)
    ensures RunsBefore([], u.picks, 0, c.unitVoteSec)
  {
  }

  lemma RunOfOne(ps: seq<UnitPick>, i: nat, gap: real)
    requires i < |ps|
    ensures Run(ps[i..i + 1], gap)
  {
  }

  lemma RunsComplete(runs: seq<seq<UnitPick>>, ps: seq<UnitPick>, gap: real)
    requires RunsBefore(runs, ps, |ps|, gap)
    ensures MaximalRuns(runs, ps, gap)
  {
    assert ps[..|ps|] == ps;
  }

  /** Later runs start more than a gap after earlier ones. */
  lemma {:induction false} RunStartsApart(runs: seq<seq<UnitPick>>, ps: seq<UnitPick>, gap: real, i: nat, j: nat)
    requires gap > 0.0 && MaximalRuns(runs, ps, gap) && i < j < |runs|
    ensures runs[i] != [] && runs[j] != [] && runs[j][0].t - runs[i][0].t > gap
    decreases j
  {
    assert Apart(runs[j - 1], runs[j], gap);
    RunInOrder(runs[j - 1], gap);
    if i < j - 1 { RunStartsApart(runs, ps, gap, i, j - 1); }
  }

  lemma FloorApart(x: real, y: real)
    requires y - x > 1.0
    ensures x.Floor < y.Floor
  {
  }

  lemma {:induction false} ConcatHas(runs: seq<seq<UnitPick>>, i: nat, p: UnitPick)
    requires i < |runs| && p in runs[i]
    ensures p in Concat(runs)
  {
    if i < |runs| - 1 { ConcatHas(runs[..|runs| - 1], i, p); }
  }

  /** Where a vote comes from. */
  ghost predicate FromRun(c: VoteRules, u: Unit, run: seq<UnitPick>, nElig: nat, adet: real, v: Vote) {
    run != [] && RunVote(c, u, run, nElig, adet) == Some(v)
  }

  lemma {:induction false} VoteHasRun(c: VoteRules, u: Unit, runs: seq<seq<UnitPick>>, nElig: nat, adet: real, k: nat)
    returns (i: nat)
    requires NonEmpty(runs) && k < |VotesOf(c, u, runs, nElig, adet)|
    ensures i < |runs| && FromRun(c, u, runs[i], nElig, adet, VotesOf(c, u, runs, nElig, adet)[k])
  {
    hide RunVote;
    var n := |runs| - 1;
    if k < |VotesOf(c, u, runs[..n], nElig, adet)| {
      i := VoteHasRun(c, u, runs[..n], nElig, adet, k);
    } else {
      i := n;
    }
  }

  /** No two votes share a key, and later votes have later seconds. */
  ghost predicate KeysRise(vs: seq<Vote>) { forall i, j :: 0 <= i < j < |vs| ==> vs[i].key.second < vs[j].key.second }

  /** Two runs never share a key, so each unit's votes have pairwise distinct keys. */
  lemma {:induction false} VoteKeysRise(c: VoteRules, u: Unit, runs: seq<seq<UnitPick>>, ps: seq<UnitPick>, nElig: nat,
                                        adet: real)
    requires ValidRules(c) && MaximalRuns(runs, ps, c.unitVoteSec) && NonEmpty(runs)
    ensures KeysRise(VotesOf(c, u, runs, nElig, adet))
  {
    hide RunVote, MaximalRuns;
    if runs != [] {
      var n := |runs| - 1;
      var before, v := VotesOf(c, u, runs[..n], nElig, adet), RunVote(c, u, runs[n], nElig, adet);
      MaximalPrefix(runs, ps, c.unitVoteSec);
      VoteKeysRise(c, u, runs[..n], Concat(runs[..n]), nElig, adet);
      forall k | 0 <= k < |before| ensures v.Some? ==> before[k].key.second < v.value.key.second {
        var i := VoteHasRun(c, u, runs[..n], nElig, adet, k);
        RunStartsApart(runs, ps, c.unitVoteSec, i, n);
        FloorApart(runs[i][0].t, runs[n][0].t);
        VoteSecond(c, u, runs[i], nElig, adet);
        VoteSecond(c, u, runs[n], nElig, adet);
      }
    }
  }

  lemma VoteSecond(c: VoteRules, u: Unit, run: seq<UnitPick>, nElig: nat, adet: real)
    requires run != []
    ensures var v := RunVote(c, u, run, nElig, adet); v.Some? ==> v.value.key == VoteKey(u.key, run[0].t.Floor)
  {
    hide Leads, Devs, Quorum, Median;
  }

  lemma MaximalPrefix(runs: seq<seq<UnitPick>>, ps: seq<UnitPick>, gap: real)
    requires MaximalRuns(runs, ps, gap) && runs != []
    ensures MaximalRuns(runs[..|runs| - 1], Concat(runs[..|runs| - 1]), gap)
  {
    hide Run, Apart, Concat;
    var rs := runs[..|runs| - 1];
    forall i | 0 < i < |rs| ensures Apart(rs[i - 1], rs[i], gap) {
      assert Apart(runs[i - 1], runs[i], gap);
    }
  }

  /** The vote's key names a pick the unit holds. */
  ghost predicate Anchored(u: Unit, k: VoteKey) { k.unit == u.key && exists p :: p in u.picks && p.t.Floor == k.second }

  /** Every vote is formed by the rules from some run, and is anchored in a pick the unit holds. */
  lemma VotesAnchored(c: VoteRules, u: Unit, runs: seq<seq<UnitPick>>, nElig: nat, adet: real)
    requires MaximalRuns(runs, u.picks, c.unitVoteSec) && NonEmpty(runs)
    ensures forall v :: v in VotesOf(c, u, runs, nElig, adet) ==> Anchored(u, v.key)
  {
    var vs := VotesOf(c, u, runs, nElig, adet);
    forall v | v in vs ensures Anchored(u, v.key) {
      var k :| 0 <= k < |vs| && vs[k] == v;
      var i := VoteHasRun(c, u, runs, nElig, adet, k);
      ConcatHas(runs, i, runs[i][0]);
      assert runs[i][0] in u.picks;
    }
  }

  /** Every vote stands where its unit does. */
  lemma VotesHere(c: VoteRules, u: Unit, runs: seq<seq<UnitPick>>, nElig: nat, adet: real)
    requires NonEmpty(runs)
    ensures forall v :: v in VotesOf(c, u, runs, nElig, adet) ==>
              v.key.unit == u.key && v.lat == u.lat && v.lng == u.lng
  {
    hide Leads, Devs, Quorum, Median, VotesOf;
    var vs := VotesOf(c, u, runs, nElig, adet);
    forall v | v in vs ensures v.key.unit == u.key && v.lat == u.lat && v.lng == u.lng {
      var k :| 0 <= k < |vs| && vs[k] == v;
      var i := VoteHasRun(c, u, runs, nElig, adet, k);
    }
  }
}
