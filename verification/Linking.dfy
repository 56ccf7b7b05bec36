/**
 Space-time groups of votes: union-find with path halving finds exactly the connected components of the link
 relation, each named by its earliest vote.
 */
module Linking {
  import opened Basics
  import opened Votes
  import T = TravelTimes

  /** The association tuning. Distances and square roots are given. */
  datatype Rules = Rules(travel: T.Config, residualK: real, sigmaModel: real, maxLinkKM: real,
                         dist: (real, real, real, real) -> real)

  predicate ValidRules(c: Rules) { T.ValidConfig(c.travel) }

  /** The residual tolerance of a vote. */
  function Tau(c: Rules, sigma: real): real { c.residualK * c.travel.sqrt(sigma * sigma + c.sigmaModel * c.sigmaModel) }

  /** The P-S separation 50 km from a source. */
  function Slack(c: Rules): real
    requires ValidRules(c)
  {
    50.0 * (1.0 / c.travel.vs - 1.0 / c.travel.vp)
  }

  /** The two votes are close enough, in space and time, to come from one source. */
  predicate Linked(c: Rules, a: Vote, b: Vote)
    requires ValidRules(c)
  {
    var d := c.dist(a.lat, a.lng, b.lat, b.lng);
    d <= c.maxLinkKM && Abs(a.t - b.t) <= d / c.travel.vs + Slack(c) + Tau(c, a.sigma) + Tau(c, b.sigma)
  }

  // ---------------------------------------------------------------------
  // Connectedness
  // ---------------------------------------------------------------------

  /** A link, in either direction. */
  ghost predicate Adjacent(c: Rules, votes: seq<Vote>, i: nat, j: nat)
    requires ValidRules(c)
  {
    && i < |votes| && j < |votes|
    && ((i < j && Linked(c, votes[i], votes[j])) || (j < i && Linked(c, votes[j], votes[i])))
  }

  ghost predicate IsPath(c: Rules, votes: seq<Vote>, p: seq<nat>, i: nat, j: nat)
    requires ValidRules(c)
  {
    && p != [] && p[0] == i && p[|p| - 1] == j && i < |votes|
    && forall k :: 0 < k < |p| ==> Adjacent(c, votes, p[k - 1], p[k])
  }

  ghost predicate Connected(c: Rules, votes: seq<Vote>, i: nat, j: nat)
    requires ValidRules(c)
  {
    exists p :: IsPath(c, votes, p, i, j)
  }

  lemma ConnectedSelf(c: Rules, votes: seq<Vote>, i: nat)
    requires ValidRules(c) && i < |votes|
    ensures Connected(c, votes, i, i)
  {
    assert IsPath(c, votes, [i], i, i);
  }

  lemma ConnectedLink(c: Rules, votes: seq<Vote>, i: nat, j: nat)
    requires ValidRules(c) && Adjacent(c, votes, i, j)
    ensures Connected(c, votes, i, j)
  {
    hide Adjacent;
    assert i < |votes| by { AdjacentInside(c, votes, i, j); }
    assert IsPath(c, votes, [i, j], i, j);
  }

  lemma AdjacentInside(c: Rules, votes: seq<Vote>, i: nat, j: nat)
    requires ValidRules(c) && Adjacent(c, votes, i, j)
    ensures i < |votes| && j < |votes| && Adjacent(c, votes, j, i)
  {
  }

  lemma ConnectedVia(c: Rules, votes: seq<Vote>, i: nat, j: nat, k: nat)
    requires ValidRules(c) && Connected(c, votes, i, j) && Connected(c, votes, j, k)
    ensures Connected(c, votes, i, k)
  {
    hide Adjacent;
    var p :| IsPath(c, votes, p, i, j);
    var q :| IsPath(c, votes, q, j, k);
    var r := p + q[1..];
    forall m | 0 < m < |r| ensures Adjacent(c, votes, r[m - 1], r[m]) {
      if m >= |p| { assert r[m] == q[m - |p| + 1] && r[m - 1] == q[m - |p|]; }
    }
    assert IsPath(c, votes, r, i, k);
  }

  lemma ConnectedBack(c: Rules, votes: seq<Vote>, i: nat, j: nat)
    requires ValidRules(c) && Connected(c, votes, i, j)
    ensures Connected(c, votes, j, i)
  {
    hide Adjacent;
    var p :| IsPath(c, votes, p, i, j);
    var n := |p|;
    var r := seq(n, k requires 0 <= k < n => p[n - 1 - k]);
    forall m | 0 < m < n ensures Adjacent(c, votes, r[m - 1], r[m]) {
      assert Adjacent(c, votes, p[n - 1 - m], p[n - m]);
      AdjacentInside(c, votes, p[n - 1 - m], p[n - m]);
    }
    if n > 1 {
      assert Adjacent(c, votes, p[n - 2], p[n - 1]);
      AdjacentInside(c, votes, p[n - 2], p[n - 1]);
    }
    assert IsPath(c, votes, r, j, i);
  }

  // ---------------------------------------------------------------------
  // Forests of parents
  // ---------------------------------------------------------------------

  /** Parents never lie to the right, so following them ends at a root. */
  ghost predicate Forest(s: seq<nat>) { forall i :: 0 <= i < |s| ==> s[i] <= i }

  ghost function Root(s: seq<nat>, i: nat): (r: nat)
    requires Forest(s) && i < |s|
    ensures r <= i && s[r] == r
    decreases i
  {
    if s[i] == i then i else Root(s, s[i])
  }

  ghost predicate SameRoots(s: seq<nat>, t: seq<nat>) {
    Forest(s) && Forest(t) && |s| == |t| && forall i :: 0 <= i < |s| ==> Root(s, i) == Root(t, i)
  }

  lemma {:induction false} HalvedRoot(s: seq<nat>, i: nat, k: nat)
    requires Forest(s) && i < |s| && k < |s| && Forest(s[i := s[s[i]]])
    ensures Root(s[i := s[s[i]]], k) == Root(s, k)
    decreases k
  {
    var t := s[i := s[s[i]]];
    if t[k] != k {
      HalvedRoot(s, i, t[k]);
    }
  }

  /** Path halving changes no root. */
  lemma HalvingKeepsRoots(s: seq<nat>, i: nat)
    requires Forest(s) && i < |s|
    ensures SameRoots(s[i := s[s[i]]], s)
  {
    var t := s[i := s[s[i]]];
    assert Forest(t);
    forall k | 0 <= k < |s| ensures Root(t, k) == Root(s, k) { HalvedRoot(s, i, k); }
  }

  /** Hanging root b under the smaller root a moves exactly b's tree. */
  lemma {:induction false} JoinedRoot(s: seq<nat>, a: nat, b: nat, k: nat)
    requires Forest(s) && a < b < |s| && s[a] == a && s[b] == b && k < |s|
    ensures Forest(s[b := a]) && Root(s[b := a], k) == if Root(s, k) == b then a else Root(s, k)
    decreases k
  {
    var t := s[b := a];
    assert Forest(t);
    if k != b && s[k] != k { JoinedRoot(s, a, b, s[k]); }
  }

  method Find(parent: array<nat>, i0: nat) returns (r: nat)
    requires Forest(parent[..]) && i0 < parent.Length
    modifies parent
    ensures SameRoots(parent[..], old(parent[..]))
    ensures r == Root(old(parent[..]), i0) && r < parent.Length
  {
    ghost var s0 := parent[..];
    var i: nat := i0;
    while parent[i] != i
      invariant i < parent.Length && SameRoots(parent[..], s0) && Root(s0, i) == Root(s0, i0)
      decreases i
    {
      ghost var s := parent[..];
      HalvingKeepsRoots(s, i);
      parent[i] := parent[parent[i]];
      assert parent[..] == s[i := s[s[i]]];
      assert Root(s, i) == Root(s, s[s[i]]);
      i := parent[i];
    }
    return i;
  }

  /** Every vote is connected to its root. */
  ghost predicate Sound(c: Rules, votes: seq<Vote>, s: seq<nat>)
    requires ValidRules(c)
  {
    Forest(s) && |s| == |votes| && forall k :: 0 <= k < |s| ==> Connected(c, votes, k, Root(s, k))
  }

  /** The linked pairs up to (i, j) already share a root. */
  ghost predicate Joined(c: Rules, votes: seq<Vote>, s: seq<nat>, i: nat, j: nat)
    requires ValidRules(c)
  {
    && Forest(s) && |s| == |votes|
    && forall x, y :: 0 <= x < y < |s| && (x < i || (x == i && y < j)) && Linked(c, votes[x], votes[y]) ==>
         Root(s, x) == Root(s, y)
  }

  lemma SameRootsKeep(c: Rules, votes: seq<Vote>, s: seq<nat>, t: seq<nat>, i: nat, j: nat)
    requires ValidRules(c) && SameRoots(t, s) && Sound(c, votes, s) && Joined(c, votes, s, i, j)
    ensures Sound(c, votes, t) && Joined(c, votes, t, i, j)
  {
    hide Connected, Linked;
  }

  lemma JoinSound(c: Rules, votes: seq<Vote>, s: seq<nat>, x: nat, y: nat, a: nat, b: nat)
    requires ValidRules(c) && Sound(c, votes, s) && x < |s| && y < |s|
    requires a < b && {Root(s, x), Root(s, y)} == {a, b} && Adjacent(c, votes, x, y)
    ensures Sound(c, votes, s[b := a])
  {
    hide Connected, Linked, Adjacent;
    var t := s[b := a];
    AdjacentInside(c, votes, x, y);
    var u, v := if Root(s, x) == a then x else y, if Root(s, x) == a then y else x;
    assert a in {Root(s, x), Root(s, y)} && b in {Root(s, x), Root(s, y)};
    assert Root(s, u) == a && Root(s, v) == b;
    assert Connected(c, votes, v, b) && Connected(c, votes, u, a);
    ConnectedBack(c, votes, v, b);
    ConnectedLink(c, votes, v, u);
    ConnectedVia(c, votes, b, v, u);
    ConnectedVia(c, votes, b, u, a);
    assert Forest(t);
    forall k | 0 <= k < |t| ensures Connected(c, votes, k, Root(t, k)) {
      JoinedRoot(s, a, b, k);
      assert Connected(c, votes, k, Root(s, k));
      if Root(s, k) == b { ConnectedVia(c, votes, k, b, a); }
    }
  }

  lemma JoinJoins(c: Rules, votes: seq<Vote>, s: seq<nat>, x: nat, y: nat, a: nat, b: nat)
    requires ValidRules(c) && x < y < |s| && Joined(c, votes, s, x, y)
    requires a < b && {Root(s, x), Root(s, y)} == {a, b}
    ensures Joined(c, votes, s[b := a], x, y + 1)
  {
    hide Linked;
    var t := s[b := a];
    assert a in {Root(s, x), Root(s, y)} && b in {Root(s, x), Root(s, y)};
    assert Forest(t);
    forall k | 0 <= k < |t| ensures Root(t, k) == if Root(s, k) == b then a else Root(s, k) { JoinedRoot(s, a, b, k); }
  }

  /** One pair: joins the two trees if the votes are linked, the larger root under the smaller. */
  method LinkPair(c: Rules, votes: seq<Vote>, parent: array<nat>, i: nat, j: nat)
    requires ValidRules(c) && i < j < parent.Length
    requires Sound(c, votes, parent[..]) && Joined(c, votes, parent[..], i, j)
    modifies parent
    ensures Sound(c, votes, parent[..]) && Joined(c, votes, parent[..], i, j + 1)
  {
    hide Sound, Joined, Tau, Slack, Connected;
    ghost var s := parent[..];
    assert Forest(s) && |s| == |votes| by { SoundForest(c, votes, s); }
    var d := c.dist(votes[i].lat, votes[i].lng, votes[j].lat, votes[j].lng);
    if d > c.maxLinkKM {
      NothingToJoin(c, votes, s, i, j);
      return;
    }
    if Abs(votes[i].t - votes[j].t) <= d / c.travel.vs + Slack(c) + Tau(c, votes[i].sigma) + Tau(c, votes[j].sigma) {
      assert Adjacent(c, votes, i, j);
      hide Linked, Adjacent;
      var a := Find(parent, i);
      ghost var s1 := parent[..];
      var b := Find(parent, j);
      ghost var s2 := parent[..];
      assert SameRoots(s2, s);
      SameRootsKeep(c, votes, s, s2, i, j);
      if a != b {
        ghost var lo, hi := if a < b then a else b, if a < b then b else a;
        assert {Root(s2, i), Root(s2, j)} == {lo, hi};
        JoinSound(c, votes, s2, i, j, lo, hi);
        JoinJoins(c, votes, s2, i, j, lo, hi);
        if a < b { parent[b] := a; } else { parent[a] := b; }
        assert parent[..] == s2[hi := lo];
      } else {
        NothingToJoin(c, votes, s2, i, j);
      }
    } else {
      NothingToJoin(c, votes, s, i, j);
    }
  }

  lemma SoundForest(c: Rules, votes: seq<Vote>, s: seq<nat>)
    requires ValidRules(c) && Sound(c, votes, s)
    ensures Forest(s) && |s| == |votes|
  {
  }

  lemma NothingToJoin(c: Rules, votes: seq<Vote>, s: seq<nat>, i: nat, j: nat)
    requires ValidRules(c) && i < j < |s| && Joined(c, votes, s, i, j)
    requires Linked(c, votes[i], votes[j]) ==> Root(s, i) == Root(s, j)
    ensures Joined(c, votes, s, i, j + 1)
  {
    hide Linked;
  }

  // ---------------------------------------------------------------------
  // Components
  // ---------------------------------------------------------------------

  /** rt names every vote's component by the component's smallest index. */
  ghost predicate Components(c: Rules, votes: seq<Vote>, rt: seq<nat>)
    requires ValidRules(c)
  {
    && |rt| == |votes|
    && (forall i :: 0 <= i < |rt| ==> rt[i] <= i && rt[rt[i]] == rt[i])
    && forall i, j :: 0 <= i < |rt| && 0 <= j < |rt| ==> (rt[i] == rt[j] <==> Connected(c, votes, i, j))
  }

  lemma {:induction false} PathJoined(c: Rules, votes: seq<Vote>, s: seq<nat>, p: seq<nat>, i: nat, j: nat)
    requires ValidRules(c) && Joined(c, votes, s, |s|, 0) && IsPath(c, votes, p, i, j)
    ensures j < |s| && Root(s, i) == Root(s, j)
    decreases |p|
  {
    if |p| > 1 {
      assert Adjacent(c, votes, p[|p| - 2], p[|p| - 1]);
      PathJoined(c, votes, s, p[..|p| - 1], i, p[|p| - 2]);
    }
  }

  ghost function Roots(s: seq<nat>): (rt: seq<nat>)
    requires Forest(s)
    ensures |rt| == |s| && forall i :: 0 <= i < |s| ==> rt[i] == Root(s, i)
  {
    seq(|s|, i requires 0 <= i < |s| => Root(s, i))
  }

  lemma AllJoined(c: Rules, votes: seq<Vote>, s: seq<nat>)
    requires ValidRules(c) && Sound(c, votes, s) && Joined(c, votes, s, |s|, 0)
    ensures Components(c, votes, Roots(s))
  {
    var rt := Roots(s);
    forall i, j | 0 <= i < |rt| && 0 <= j < |rt| ensures rt[i] == rt[j] <==> Connected(c, votes, i, j) {
      assert Connected(c, votes, i, rt[i]) && Connected(c, votes, j, rt[j]);
      if rt[i] == rt[j] {
        ConnectedBack(c, votes, j, rt[j]);
        ConnectedVia(c, votes, i, rt[i], j);
      } else if Connected(c, votes, i, j) {
        var p :| IsPath(c, votes, p, i, j);
        PathJoined(c, votes, s, p, i, j);
        assert false;
      }
    }
    hide Connected, Linked;
    forall i | 0 <= i < |rt| ensures rt[i] <= i && rt[rt[i]] == rt[i] {}
  }

  /** No index of a component is smaller than the one that names it. */
  lemma NamedBySmallest(c: Rules, votes: seq<Vote>, rt: seq<nat>, i: nat, j: nat)
    requires ValidRules(c) && Components(c, votes, rt) && i < |rt| && j < |rt| && Connected(c, votes, i, j)
    ensures rt[i] <= j && Connected(c, votes, i, rt[i])
  {
    assert rt[i] == rt[j];
    assert rt[rt[i]] == rt[i];
  }

  /** Compares every pair of votes and joins the linked ones. */
  method UnionAll(c: Rules, votes: seq<Vote>) returns (parent: array<nat>)
    requires ValidRules(c)
    ensures fresh(parent) && parent.Length == |votes| && Forest(parent[..])
    ensures Components(c, votes, Roots(parent[..]))
  {
    hide Linked, Connected, Sound, Joined, Components;
    var n := |votes|;
    parent := new nat[n](i => i);
    StartSound(c, votes, parent[..]);
    for i := 0 to n
      invariant fresh(parent) && parent.Length == n
      invariant Sound(c, votes, parent[..]) && Joined(c, votes, parent[..], i, 0)
    {
      RowStart(c, votes, parent[..], i);
      for j := i + 1 to n
        invariant Sound(c, votes, parent[..]) && Joined(c, votes, parent[..], i, j)
      {
        LinkPair(c, votes, parent, i, j);
      }
      RowDone(c, votes, parent[..], i);
    }
    SoundForest(c, votes, parent[..]);
    AllJoined(c, votes, parent[..]);
  }

  lemma StartSound(c: Rules, votes: seq<Vote>, s: seq<nat>)
    requires ValidRules(c) && |s| == |votes| && forall i :: 0 <= i < |s| ==> s[i] == i
    ensures Sound(c, votes, s) && Joined(c, votes, s, 0, 0)
  {
    forall k | 0 <= k < |s| ensures Connected(c, votes, k, Root(s, k)) { ConnectedSelf(c, votes, k); }
  }

  lemma RowStart(c: Rules, votes: seq<Vote>, s: seq<nat>, i: nat)
    requires ValidRules(c) && i < |s| && Joined(c, votes, s, i, 0)
    ensures Joined(c, votes, s, i, i + 1)
  {
    hide Linked;
  }

  lemma RowDone(c: Rules, votes: seq<Vote>, s: seq<nat>, i: nat)
    requires ValidRules(c) && i < |s| && Joined(c, votes, s, i, |s|)
    ensures Joined(c, votes, s, i + 1, 0)
  {
    hide Linked;
  }
}
