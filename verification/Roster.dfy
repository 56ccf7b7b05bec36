/** The stations of a unit: which are listening, and the unit's typical sensitivity and clock error. */
module Roster {
  import opened Medians
  import opened Votes
  import S = Sorting

  /** What the network knows of a device: its descriptor, its last status, and the unit it is in. */
  datatype Station = Station(source: string, enrolledAt: real, streamedSec: real, eligible: bool, threshold: real,
                             clockUnc: real, lastSeen: real, unit: UnitKey)

  /** Eligible, and heard of recently. */
  predicate Listens(r: Station, now: real, timeout: real) { r.eligible && now - r.lastSeen <= timeout }

  function Listeners(stations: map<Device, Station>, members: set<Device>, now: real, timeout: real): set<Device> {
    set d | d in members && d in stations && Listens(stations[d], now, timeout)
  }

  ghost predicate Distinct<A>(xs: seq<A>) { forall i, j :: 0 <= i < j < |xs| ==> xs[i] != xs[j] }

  /** xs lists every element of s once. */
  ghost predicate Lists<A(!new)>(xs: seq<A>, s: set<A>) {
    |xs| == |s| && Distinct(xs) && forall x :: x in xs <==> x in s
  }

  /** Some order of the elements, as iteration over a map or set visits them. */
  method Enumerate<A(==,!new)>(s: set<A>) returns (xs: seq<A>)
    ensures Lists(xs, s)
  {
    var rest := s;
    xs := [];
    while rest != {}
      invariant rest <= s && |xs| + |rest| == |s| && Distinct(xs)
      invariant forall x :: x in xs <==> x in s - rest
      decreases |rest|
    {
      var x :| x in rest;
      forall i | 0 <= i < |xs| ensures xs[i] != x { assert xs[i] in xs; }
      xs, rest := xs + [x], rest - {x};
    }
  }

  /** Every list of a set is a rearrangement of every other. */
  lemma {:induction false} ListsArePermutations<A(!new)>(xs: seq<A>, s: set<A>)
    requires Lists(xs, s)
    ensures multiset(xs) == multiset(s)
  {
    if xs == [] {
      assert s == {};
    } else {
      var n := |xs| - 1;
      var x := xs[n];
      assert x in xs;
      assert xs == xs[..n] + [x];
      forall y ensures y in xs[..n] <==> y in s - {x} {
        if y in xs[..n] {
          var i :| 0 <= i < n && xs[i] == y;
          assert xs[i] in xs;
        }
      }
      ListsArePermutations(xs[..n], s - {x});
      assert multiset(s) == multiset(s - {x}) + multiset{x};
    }
  }

  function Threshold(stations: map<Device, Station>, d: Device): real {
    if d in stations then stations[d].threshold else 0.0
  }

  function ClockError(stations: map<Device, Station>, d: Device): real {
    if d in stations then stations[d].clockUnc else 0.0
  }

  function Thresholds(stations: map<Device, Station>, ds: seq<Device>): (r: seq<real>)
    ensures |r| == |ds|
  {
    S.Map(d => Threshold(stations, d), ds)
  }

  function ClockErrors(stations: map<Device, Station>, ds: seq<Device>): (r: seq<real>)
    ensures |r| == |ds|
  {
    S.Map(d => ClockError(stations, d), ds)
  }

  lemma {:induction false} ListExists<A(!new)>(s: set<A>)
    ensures exists xs :: Lists(xs, s)
  {
    if s == {} {
      assert Lists([], s);
    } else {
      var x :| x in s;
      ListExists(s - {x});
      var xs :| Lists(xs, s - {x});
      forall i | 0 <= i < |xs| ensures xs[i] != x { assert xs[i] in xs; }
      assert Lists(xs + [x], s);
    }
  }

  /** Medians over the stations that listen; zero if none does. */
  datatype Summary = Summary(n: nat, adet: real, clock: real)

  function SummaryOf(stations: map<Device, Station>, ds: seq<Device>): Summary {
    if ds == [] then Summary(0, 0.0, 0.0)
    else Summary(|ds|, Median(Thresholds(stations, ds)), Median(ClockErrors(stations, ds)))
  }

  /** The summary does not depend on the order in which the stations are visited. */
  lemma SummaryUnique(stations: map<Device, Station>, s: set<Device>, a: seq<Device>, b: seq<Device>)
    requires Lists(a, s) && Lists(b, s)
    ensures SummaryOf(stations, a) == SummaryOf(stations, b)
  {
    hide Median, S.Map;
    ListsArePermutations(a, s);
    ListsArePermutations(b, s);
    S.MapPermutation(d => Threshold(stations, d), a, b);
    S.MapPermutation(d => ClockError(stations, d), a, b);
    if a != [] {
      MedianPermutation(Thresholds(stations, a), Thresholds(stations, b));
      MedianPermutation(ClockErrors(stations, a), ClockErrors(stations, b));
    }
  }

  ghost function SurveyOf(stations: map<Device, Station>, members: set<Device>, now: real, timeout: real): Summary {
    var ls := Listeners(stations, members, now, timeout);
    ListExists(ls);
    var ds :| Lists(ds, ls);
    SummaryOf(stations, ds)
  }

  lemma SurveyCount(stations: map<Device, Station>, members: set<Device>, now: real, timeout: real)
    ensures SurveyOf(stations, members, now, timeout).n == |Listeners(stations, members, now, timeout)|
  {
    hide Median;
  }

  /** How many of the members listen, and the medians of their thresholds and clock errors. */
  method Survey(stations: map<Device, Station>, members: set<Device>, now: real, timeout: real) returns (s: Summary)
    ensures s == SurveyOf(stations, members, now, timeout)
    ensures s.n == |Listeners(stations, members, now, timeout)|
  {
    hide Median;
    var ls := Listeners(stations, members, now, timeout);
    var ds := Enumerate(ls);
    s := Summary(0, 0.0, 0.0);
    if ds != [] { s := Summary(|ds|, Median(Thresholds(stations, ds)), Median(ClockErrors(stations, ds))); }
    assert s == SummaryOf(stations, ds);
    hide SummaryOf;
    ListExists(ls);
    ghost var es :| Lists(es, ls) && SurveyOf(stations, members, now, timeout) == SummaryOf(stations, es);
    SummaryUnique(stations, ls, ds, es);
  }
}
