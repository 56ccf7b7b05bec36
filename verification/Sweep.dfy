/**
 For one hypothesised epicentre, the origin time that makes the most observations consistent:
 a sweep over the ends of their closed P and S intervals.
 */
module IntervalSweep {
  import opened Basics
  import opened Sorting
  import opened TravelTimes

  datatype Interval = Interval(pos: real, start: bool, obs: nat)

  function ObsIntervals(c: Config, x: real, y: real, o: Obs, i: nat): (r: seq<Interval>)
    requires ValidConfig(c)
    ensures |r| == 4
  {
    var p, s := POrigin(c, x, y, o), SOrigin(c, x, y, o);
    [Interval(p - o.tau, true, i), Interval(p + o.tau, false, i),
     Interval(s - o.tau, true, i), Interval(s + o.tau, false, i)]
  }

  function Intervals(c: Config, x: real, y: real, obs: seq<Obs>): seq<Interval>
    requires ValidConfig(c)
  {
    if obs == [] then []
    else Intervals(c, x, y, obs[..|obs| - 1]) + ObsIntervals(c, x, y, obs[|obs| - 1], |obs| - 1)
  }

  /** By position; on a tie, interval starts come before interval ends. */
  predicate Before(a: Interval, b: Interval) {
    a.pos < b.pos || (a.pos == b.pos && (a.start || !b.start))
  }

  function Step(e: Interval): int { if e.start then 1 else -1 }

  /** Counts the events of observation o before t, and those at t of the chosen kinds. */
  function UpTo(t: real, starts: bool, ends: bool, o: nat): Interval -> int {
    (e: Interval) =>
      if e.obs == o && (e.pos < t || (e.pos == t && (if e.start then starts else ends))) then Step(e) else 0
  }

  function Of(o: nat): Interval -> int {
    (e: Interval) => if e.obs == o then Step(e) else 0
  }

  /** How many intervals of o are open after the first m events. */
  function Net(iv: seq<Interval>, m: nat, o: nat): int
    requires m <= |iv|
  {
    Sum(iv[..m], Of(o))
  }

  /** The observations covered after the first m events. */
  function Covered(iv: seq<Interval>, m: nat, n: nat): set<nat>
    requires m <= |iv|
  {
    set o: nat | o < n && Net(iv, m, o) > 0
  }

  lemma NetStep(iv: seq<Interval>, m: nat, o: nat)
    requires m < |iv|
    ensures Net(iv, m + 1, o) == Net(iv, m, o) + (if iv[m].obs == o then Step(iv[m]) else 0)
  {
    assert iv[..m + 1][..m] == iv[..m];
  }

  /** A weight that ignores other observations only sees the four events of its own. */
  lemma {:induction false} SumOfIntervals(c: Config, x: real, y: real, obs: seq<Obs>, o: nat, f: Interval -> int)
    requires ValidConfig(c)
    requires forall e: Interval :: e.obs != o ==> f(e) == 0
    ensures Sum(Intervals(c, x, y, obs), f)
         == if o < |obs| then Sum(ObsIntervals(c, x, y, obs[o], o), f) else 0
  {
    if obs != [] {
      var n := |obs| - 1;
      SumOfIntervals(c, x, y, obs[..n], o, f);
      SumConcat(Intervals(c, x, y, obs[..n]), ObsIntervals(c, x, y, obs[n], n), f);
      SumOfFour(ObsIntervals(c, x, y, obs[n], n), f);
    }
  }

  lemma SumOfFour(s: seq<Interval>, f: Interval -> int)
    requires |s| == 4
    ensures Sum(s, f) == f(s[0]) + f(s[1]) + f(s[2]) + f(s[3])
  {
    assert s[..3][..2] == s[..2] && s[..2][..1] == s[..1] && s[..1][..0] == [];
    assert Sum(s[..1], f) == f(s[0]);
    assert Sum(s[..2], f) == f(s[0]) + f(s[1]);
    assert Sum(s[..3], f) == f(s[0]) + f(s[1]) + f(s[2]);
  }

  /** The open intervals of o at time t are those whose closed interval contains t. */
  lemma OpenAt(c: Config, x: real, y: real, obs: seq<Obs>, t: real, o: nat)
    requires ValidConfig(c) && Tolerant(obs)
    ensures var n := Sum(Intervals(c, x, y, obs), UpTo(t, true, false, o));
            n > 0 <==> o < |obs| && Consistent(c, x, y, obs[o], t)
    ensures Sum(Intervals(c, x, y, obs), UpTo(t, false, false, o)) >= 0
    ensures Sum(Intervals(c, x, y, obs), UpTo(t, true, true, o)) >= 0
  {
    SumOfIntervals(c, x, y, obs, o, UpTo(t, true, false, o));
    SumOfIntervals(c, x, y, obs, o, UpTo(t, false, false, o));
    SumOfIntervals(c, x, y, obs, o, UpTo(t, true, true, o));
    if o < |obs| {
      assert obs[o] in obs;
      var s := ObsIntervals(c, x, y, obs[o], o);
      SumOfFour(s, UpTo(t, true, false, o));
      SumOfFour(s, UpTo(t, false, false, o));
      SumOfFour(s, UpTo(t, true, true, o));
    }
  }

  /** Where an event order is cut: `cut` events pass, the others do not. */
  ghost predicate CutAt(iv: seq<Interval>, t: real, cut: nat) {
    cut <= |iv|
    && (forall i :: 0 <= i < cut ==> iv[i].pos < t || (iv[i].pos == t && iv[i].start))
    && (forall i :: cut <= i < |iv| ==> iv[i].pos > t || (iv[i].pos == t && !iv[i].start))
  }

  lemma {:induction false} CutExists(iv: seq<Interval>, t: real) returns (cut: nat)
    requires SortedBy(iv, Before)
    ensures CutAt(iv, t, cut)
  {
    cut := 0;
    while cut < |iv| && (iv[cut].pos < t || (iv[cut].pos == t && iv[cut].start))
      invariant cut <= |iv|
      invariant forall i :: 0 <= i < cut ==> iv[i].pos < t || (iv[i].pos == t && iv[i].start)
    {
      cut := cut + 1;
    }
    if cut < |iv| {
      forall i | cut <= i < |iv| ensures iv[i].pos > t || (iv[i].pos == t && !iv[i].start) {
        if cut < i { assert Before(iv[cut], iv[i]); }
      }
    }
  }

  lemma {:induction false} NetAtCut(iv: seq<Interval>, t: real, cut: nat, o: nat, k: nat)
    requires CutAt(iv, t, cut) && k <= |iv|
    ensures Sum(iv[..k], UpTo(t, true, false, o)) == Net(iv, if k < cut then k else cut, o)
  {
    if k != 0 {
      NetAtCut(iv, t, cut, o, k - 1);
      assert iv[..k][..k - 1] == iv[..k - 1];
      NetStep(iv, k - 1, o);
    }
  }

  /** After any event, no observation is covered a negative number of times. */
  lemma NetNonNegative(c: Config, x: real, y: real, obs: seq<Obs>, iv: seq<Interval>, m: nat, o: nat)
    requires ValidConfig(c) && Tolerant(obs) && m <= |iv|
    requires SortedBy(iv, Before) && multiset(iv) == multiset(Intervals(c, x, y, obs))
    ensures Net(iv, m, o) >= 0
  {
    if m > 0 {
      var e := iv[m - 1];
      var f := UpTo(e.pos, !e.start, !e.start, o);
      NetDominates(iv, m, o, |iv|);
      assert iv[..|iv|] == iv;
      SumPermutation(iv, Intervals(c, x, y, obs), f);
      OpenAt(c, x, y, obs, e.pos, o);
    }
  }

  /** A prefix ending in a start holds all events before it, one ending in an end all starts up to it. */
  lemma {:induction false} NetDominates(iv: seq<Interval>, m: nat, o: nat, k: nat)
    requires SortedBy(iv, Before) && 0 < m <= |iv| && k <= |iv|
    ensures var e := iv[m - 1];
            Sum(iv[..k], UpTo(e.pos, !e.start, !e.start, o)) <= Net(iv, if k < m then k else m, o)
  {
    if k != 0 {
      NetDominates(iv, m, o, k - 1);
      assert iv[..k][..k - 1] == iv[..k - 1];
      NetStep(iv, k - 1, o);
      var a, e := iv[k - 1], iv[m - 1];
      if k < m { assert Before(a, e); }
      if m < k { assert Before(e, a); }
    }
  }

  /** The covered set after a cut at t is exactly the set of observations consistent with t. */
  lemma CoveredAtCut(c: Config, x: real, y: real, obs: seq<Obs>, iv: seq<Interval>, t: real, cut: nat)
    requires ValidConfig(c) && Tolerant(obs)
    requires CutAt(iv, t, cut) && multiset(iv) == multiset(Intervals(c, x, y, obs))
    ensures Covered(iv, cut, |obs|) == Consistents(c, x, y, obs, t)
  {
    forall o: nat | o < |obs|
      ensures Net(iv, cut, o) > 0 <==> Consistent(c, x, y, obs[o], t)
    {
      NetAtCut(iv, t, cut, o, |iv|);
      assert iv[..|iv|] == iv;
      SumPermutation(iv, Intervals(c, x, y, obs), UpTo(t, true, false, o));
      OpenAt(c, x, y, obs, t, o);
    }
  }

  /** The midpoint between event w and the event that follows it. */
  function MidAfter(iv: seq<Interval>, w: nat): real
    requires w < |iv|
  {
    (iv[w].pos + (if w + 1 < |iv| then iv[w + 1].pos else iv[w].pos)) / 2.0
  }

  /** At the recorded midpoint at least the observations covered after event w are consistent. */
  lemma MidKeepsCover(c: Config, x: real, y: real, obs: seq<Obs>, iv: seq<Interval>, w: nat)
    requires ValidConfig(c) && Tolerant(obs) && w < |iv| && iv[w].start
    requires SortedBy(iv, Before) && multiset(iv) == multiset(Intervals(c, x, y, obs))
    ensures Covered(iv, w + 1, |obs|) <= Consistents(c, x, y, obs, MidAfter(iv, w))
  {
    hide Net, Intervals;
    var t := MidAfter(iv, w);
    var cut := CutExists(iv, t);
    CoveredAtCut(c, x, y, obs, iv, t, cut);
    if w + 1 < |iv| { assert Before(iv[w], iv[w + 1]); }
    assert w < cut;
    forall i | w < i < cut ensures iv[i].start {
      if w + 1 < i { assert Before(iv[w + 1], iv[i]); }
    }
    forall o: nat ensures Net(iv, w + 1, o) <= Net(iv, cut, o) {
      StartsOnlyAdd(iv, w + 1, cut, o);
    }
  }

  lemma {:induction false} StartsOnlyAdd(iv: seq<Interval>, a: nat, b: nat, o: nat)
    requires a <= b <= |iv| && forall i :: a <= i < b ==> iv[i].start
    ensures Net(iv, a, o) <= Net(iv, b, o)
  {
    if a < b {
      StartsOnlyAdd(iv, a, b - 1, o);
      NetStep(iv, b - 1, o);
    }
  }

  /** No real origin time is consistent with more observations than some prefix of events covers. */
  lemma SweepBound(c: Config, x: real, y: real, obs: seq<Obs>, iv: seq<Interval>, best: nat)
    requires ValidConfig(c) && Tolerant(obs)
    requires SortedBy(iv, Before) && multiset(iv) == multiset(Intervals(c, x, y, obs))
    requires forall i :: 0 <= i <= |iv| ==> |Covered(iv, i, |obs|)| <= best
    ensures forall t :: |Consistents(c, x, y, obs, t)| <= best
  {
    forall t ensures |Consistents(c, x, y, obs, t)| <= best {
      var cut := CutExists(iv, t);
      CoveredAtCut(c, x, y, obs, iv, t, cut);
    }
  }

  /**
   The sweep over any sorted arrangement of the interval ends: at bestAt exactly `best` observations
   are consistent, and no real origin time makes more of them consistent.
   */
  method Sweep(iv: seq<Interval>, cover: array<int>, ghost c: Config, ghost x: real, ghost y: real, ghost obs: seq<Obs>)
    returns (best: nat, bestAt: real)
    requires ValidConfig(c) && Tolerant(obs) && cover.Length == |obs|
    requires SortedBy(iv, Before) && multiset(iv) == multiset(Intervals(c, x, y, obs))
    modifies cover
    ensures best == |Consistents(c, x, y, obs, bestAt)|
    ensures forall t :: |Consistents(c, x, y, obs, t)| <= best
  {
    hide Net, Covered, Consistents, Intervals, Before;
    for i := 0 to cover.Length
      invariant forall o :: 0 <= o < i ==> cover[o] == 0
    {
      cover[i] := 0;
    }
    var distinct := 0;
    best, bestAt := 0, 0.0;
    ghost var w := 0;
    NothingCovered(iv, |obs|);
    for j := 0 to |iv|
      invariant forall o: nat :: o < |obs| ==> cover[o] == Net(iv, j, o)
      invariant distinct == |Covered(iv, j, |obs|)|
      invariant forall i :: 0 <= i <= j ==> |Covered(iv, i, |obs|)| <= best
      invariant best > 0 ==> w < j && iv[w].start && best == |Covered(iv, w + 1, |obs|)| && bestAt == MidAfter(iv, w)
    {
      var e := iv[j];
      SweepStep(c, x, y, obs, iv, j);
      if e.start {
        if cover[e.obs] == 0 { distinct := distinct + 1; }
        cover[e.obs] := cover[e.obs] + 1;
        if distinct > best {
          best := distinct;
          var end := e.pos;
          if j + 1 < |iv| { end := iv[j + 1].pos; }
          bestAt := (e.pos + end) / 2.0;
          w := j;
        }
      } else {
        cover[e.obs] := cover[e.obs] - 1;
        if cover[e.obs] == 0 { distinct := distinct - 1; }
      }
    }
    SweepBound(c, x, y, obs, iv, best);
    if best > 0 {
      MidKeepsCover(c, x, y, obs, iv, w);
      SubsetSize(Covered(iv, w + 1, |obs|), Consistents(c, x, y, obs, bestAt));
    }
  }

  lemma NothingCovered(iv: seq<Interval>, n: nat)
    ensures Covered(iv, 0, n) == {} && forall o: nat :: Net(iv, 0, o) == 0
  {
    assert iv[..0] == [];
  }

  /** What one event does to every observation's cover and to the covered set. */
  lemma SweepStep(c: Config, x: real, y: real, obs: seq<Obs>, iv: seq<Interval>, j: nat)
    requires ValidConfig(c) && Tolerant(obs) && j < |iv|
    requires SortedBy(iv, Before) && multiset(iv) == multiset(Intervals(c, x, y, obs))
    ensures iv[j].obs < |obs|
    ensures forall o: nat :: Net(iv, j + 1, o) == Net(iv, j, o) + (if iv[j].obs == o then Step(iv[j]) else 0)
    ensures var e, a, b := iv[j], Covered(iv, j, |obs|), Covered(iv, j + 1, |obs|);
            if e.start then b == a + {e.obs} && (e.obs in a <==> Net(iv, j, e.obs) != 0)
            else e.obs in a && b == if Net(iv, j + 1, e.obs) == 0 then a - {e.obs} else a
  {
    hide Net, Covered, Before, Intervals;
    var e := iv[j];
    assert e in multiset(iv);
    IntervalOwner(c, x, y, obs, e);
    NetNonNegative(c, x, y, obs, iv, j, e.obs);
    NetNonNegative(c, x, y, obs, iv, j + 1, e.obs);
    forall o: nat
      ensures Net(iv, j + 1, o) == Net(iv, j, o) + (if e.obs == o then Step(e) else 0)
    {
      NetStep(iv, j, o);
    }
    CoveredStep(iv, j, |obs|);
  }

  lemma CoveredStep(iv: seq<Interval>, j: nat, n: nat)
    requires j < |iv| && iv[j].obs < n
    requires forall o: nat :: Net(iv, j + 1, o) == Net(iv, j, o) + (if iv[j].obs == o then Step(iv[j]) else 0)
    requires Net(iv, j, iv[j].obs) >= 0 && Net(iv, j + 1, iv[j].obs) >= 0
    ensures var e, a, b := iv[j], Covered(iv, j, n), Covered(iv, j + 1, n);
            if e.start then b == a + {e.obs} && (e.obs in a <==> Net(iv, j, e.obs) != 0)
            else e.obs in a && b == if Net(iv, j + 1, e.obs) == 0 then a - {e.obs} else a
  {
    hide Net;
  }

  lemma {:induction false} IntervalOwner(c: Config, x: real, y: real, obs: seq<Obs>, e: Interval)
    requires ValidConfig(c) && e in Intervals(c, x, y, obs)
    ensures e.obs < |obs|
  {
    if obs != [] && e in Intervals(c, x, y, obs[..|obs| - 1]) {
      IntervalOwner(c, x, y, obs[..|obs| - 1], e);
    }
  }
}
