/**
 Association: votes are split into space-time groups, and point-source clusters are peeled off each group.
 No vote is lost, repeated or reordered, and every cluster's fit describes exactly the cluster's votes.
 */
module Association {
  import opened Basics
  import opened Decimals
  import opened Votes
  import opened Linking
  import opened Selection
  import L = Locator
  import S = Sorting
  import T = TravelTimes

  // ---------------------------------------------------------------------
  // Groups
  // ---------------------------------------------------------------------

  ghost predicate Increasing(s: seq<nat>) { forall i, j :: 0 <= i < j < |s| ==> s[i] < s[j] }

  /** The names of the components, and each component's votes in order. */
  ghost predicate Grouped(votes: seq<Vote>, rt: seq<nat>, roots: seq<nat>, groups: seq<seq<Vote>>) {
    && |rt| == |votes| && |groups| == |roots| && Increasing(roots)
    && (forall r: nat :: r in roots <==> r < |rt| && rt[r] == r)
    && forall g :: 0 <= g < |roots| ==> groups[g] == Labelled(votes, rt, roots[g])
  }

  /** The names among the first i indices. */
  ghost predicate NamesTo(rt: seq<nat>, i: nat, roots: seq<nat>) {
    i <= |rt| && Increasing(roots) && forall r: nat :: r in roots <==> r < i && rt[r] == r
  }

  /** The groups of the first i votes. */
  ghost predicate GroupsTo(votes: seq<Vote>, rt: seq<nat>, i: nat, groups: map<nat, seq<Vote>>) {
    && i <= |rt| == |votes|
    && (forall r: nat :: r in groups <==> r < i && rt[r] == r)
    && forall r :: r in groups ==> groups[r] == Labelled(votes[..i], rt[..i], r)
  }

  /** The groups are the votes of the connected components, in order of their first votes. */
  ghost predicate ComponentGroups(c: Rules, votes: seq<Vote>, groups: seq<seq<Vote>>)
    requires Linking.ValidRules(c)
  {
    exists rt, names :: Components(c, votes, rt) && Grouped(votes, rt, names, groups)
  }

  ghost predicate Named(rt: seq<nat>) { forall i :: 0 <= i < |rt| ==> rt[i] <= i && rt[rt[i]] == rt[i] }

  lemma {:induction false} LabelledNone<A>(xs: seq<A>, mark: seq<nat>, k: nat)
    requires |mark| == |xs| && forall i :: 0 <= i < |mark| ==> mark[i] != k
    ensures Labelled(xs, mark, k) == []
  {
    if xs != [] { LabelledNone(xs[..|xs| - 1], mark[..|xs| - 1], k); }
  }

  lemma LabelledStep(votes: seq<Vote>, rt: seq<nat>, i: nat, r: nat)
    requires i < |rt| == |votes|
    ensures Labelled(votes[..i + 1], rt[..i + 1], r)
            == if rt[i] == r then Labelled(votes[..i], rt[..i], r) + [votes[i]] else Labelled(votes[..i], rt[..i], r)
  {
    assert votes[..i + 1][..i] == votes[..i] && rt[..i + 1][..i] == rt[..i];
  }

  lemma NameNext(rt: seq<nat>, i: nat, roots: seq<nat>)
    requires NamesTo(rt, i, roots) && i < |rt| && Named(rt)
    ensures NamesTo(rt, i + 1, if rt[i] == i then roots + [i] else roots)
  {
    forall g | 0 <= g < |roots| ensures roots[g] < i { assert roots[g] in roots; }
    forall k: nat ensures k in roots + [i] <==> k == i || k in roots {}
  }

  lemma GroupNext(votes: seq<Vote>, rt: seq<nat>, i: nat, groups: map<nat, seq<Vote>>)
    requires GroupsTo(votes, rt, i, groups) && i < |rt| && Named(rt)
    ensures rt[i] in groups <==> rt[i] != i
    ensures GroupsTo(votes, rt, i + 1, groups[rt[i] := (if rt[i] in groups then groups[rt[i]] else []) + [votes[i]]])
  {
    hide Labelled;
    var r, v := rt[i], votes[i];
    var more := groups[r := (if r in groups then groups[r] else []) + [v]];
    if r == i { LabelledNone(votes[..i], rt[..i], r); }
    forall k | k in more ensures more[k] == Labelled(votes[..i + 1], rt[..i + 1], k) { LabelledStep(votes, rt, i, k); }
  }

  /** Splits the votes into their components. */
  method GroupVotes(c: Rules, votes: seq<Vote>)
    returns (groups: seq<seq<Vote>>, ghost rt: seq<nat>, ghost names: seq<nat>)
    requires Linking.ValidRules(c)
    ensures Components(c, votes, rt) && Grouped(votes, rt, names, groups)
    ensures ComponentGroups(c, votes, groups)
  {
    hide Components, SameRoots, NamesTo, GroupsTo, Forest;
    var parent := UnionAll(c, votes);
    ghost var s := parent[..];
    rt := Roots(s);
    ComponentsNamed(c, votes, rt);
    SameRootsSelf(s);
    var roots, byRoot := [], map[];
    NoneGrouped(votes, rt);
    for i := 0 to |votes|
      invariant Forest(parent[..]) && SameRoots(parent[..], s)
      invariant NamesTo(rt, i, roots) && GroupsTo(votes, rt, i, byRoot)
    {
      ghost var before := parent[..];
      var r := Find(parent, i);
      RootIs(before, s, i);
      SameRootsVia(parent[..], before, s);
      NameNext(rt, i, roots);
      GroupNext(votes, rt, i, byRoot);
      ghost var had := byRoot;
      if r !in byRoot {
        roots, byRoot := roots + [r], byRoot[r := []];
      }
      byRoot := byRoot[r := byRoot[r] + [votes[i]]];
      assert byRoot == had[r := (if r in had then had[r] else []) + [votes[i]]];
    }
    groups := AllGroups(votes, rt, roots, byRoot);
    names := roots;
  }

  lemma ComponentsNamed(c: Rules, votes: seq<Vote>, rt: seq<nat>)
    requires Linking.ValidRules(c) && Components(c, votes, rt)
    ensures |rt| == |votes| && Named(rt)
  {
    hide Connected;
  }

  lemma SameRootsSelf(s: seq<nat>)
    requires Forest(s)
    ensures SameRoots(s, s)
  {
  }

  lemma SameRootsVia(a: seq<nat>, b: seq<nat>, s: seq<nat>)
    requires SameRoots(a, b) && SameRoots(b, s)
    ensures SameRoots(a, s) && Forest(a)
  {
  }

  lemma RootIs(a: seq<nat>, s: seq<nat>, i: nat)
    requires SameRoots(a, s) && i < |s|
    ensures Forest(a) && Forest(s) && |a| == |s| && Root(a, i) == Roots(s)[i]
  {
  }

  lemma NoneGrouped(votes: seq<Vote>, rt: seq<nat>)
    requires |rt| == |votes|
    ensures NamesTo(rt, 0, []) && GroupsTo(votes, rt, 0, map[])
  {
  }

  method AllGroups(votes: seq<Vote>, ghost rt: seq<nat>, roots: seq<nat>, byRoot: map<nat, seq<Vote>>)
    returns (groups: seq<seq<Vote>>)
    requires |rt| == |votes| && NamesTo(rt, |votes|, roots) && GroupsTo(votes, rt, |votes|, byRoot)
    ensures Grouped(votes, rt, roots, groups)
  {
    hide Labelled;
    groups := [];
    assert votes[..|votes|] == votes && rt[..|votes|] == rt;
    for g := 0 to |roots|
      invariant |groups| == g && forall k :: 0 <= k < g ==> groups[k] == Labelled(votes, rt, roots[k])
    {
      assert roots[g] in roots;
      groups := groups + [byRoot[roots[g]]];
    }
  }

  // ---------------------------------------------------------------------
  // Clusters
  // ---------------------------------------------------------------------

  /** A point source and the votes it explains, with the group they came from. */
  datatype Cluster = Cluster(votes: seq<Vote>, fit: L.Fit, lat0: real, lng0: real, group: seq<Vote>)

  /** Association's tuning: the plane projection around a centre is given. */
  datatype Tuning = Tuning(link: Rules, plane: (real, real, real, real) -> (real, real))

  /** Positive model noise and residual factor make every tolerance positive. */
  ghost predicate ValidTuning(c: Tuning) {
    && Linking.ValidRules(c.link) && c.link.residualK > 0.0 && c.link.sigmaModel > 0.0
    && forall x :: x > 0.0 ==> c.link.travel.sqrt(x) > 0.0
  }

  function ObsOf(c: Tuning, lat0: real, lng0: real, v: Vote): T.Obs {
    var (x, y) := c.plane(lat0, lng0, v.lat, v.lng);
    T.Obs(x, y, v.t, Tau(c.link, v.sigma))
  }

  function AllObs(c: Tuning, lat0: real, lng0: real, vs: seq<Vote>): (r: seq<T.Obs>)
    ensures |r| == |vs| && forall i :: 0 <= i < |vs| ==> r[i] == ObsOf(c, lat0, lng0, vs[i])
  {
    seq(|vs|, i requires 0 <= i < |vs| => ObsOf(c, lat0, lng0, vs[i]))
  }

  lemma TausPositive(c: Tuning, lat0: real, lng0: real, vs: seq<Vote>)
    requires ValidTuning(c)
    ensures T.Tolerant(AllObs(c, lat0, lng0, vs))
  {
    forall o | o in AllObs(c, lat0, lng0, vs) ensures o.tau > 0.0 {
      var i :| 0 <= i < |vs| && AllObs(c, lat0, lng0, vs)[i] == o;
      var s, m := vs[i].sigma, c.link.sigmaModel;
      SquareSumPositive(s, m, m);
      ProductPositive(c.link.residualK, c.link.travel.sqrt(s * s + m * m));
    }
  }

  lemma SquareSumPositive(a: real, b: real, b2: real)
    requires b > 0.0 && b2 == b
    ensures a * a + b * b2 > 0.0
  {
    assert a * a >= 0.0;
    ProductPositive(b, b2);
  }

  /** The fit classifies exactly the cluster's votes, in order, and explains every one of them. */
  ghost predicate Fitted(c: Tuning, cl: Cluster)
    requires Linking.ValidRules(c.link)
  {
    && |cl.votes| >= 2 && cl.fit.nInliers == |cl.votes|
    && L.Classified(c.link.travel, AllObs(c, cl.lat0, cl.lng0, cl.votes), cl.fit)
    && forall i :: 0 <= i < |cl.fit.inlier| ==> cl.fit.inlier[i]
  }

  /** The explained votes of f, with f's arrays cut down to them. */
  function CutDown(f: L.Fit): L.Fit
    requires |f.inlier| == |f.phase| == |f.residual| == |f.hypo|
  {
    f.(inlier := Chosen(f.inlier, f.inlier, true), phase := Chosen(f.phase, f.inlier, true),
       residual := Chosen(f.residual, f.inlier, true), hypo := Chosen(f.hypo, f.inlier, true))
  }

  lemma ConsistentsAreInliers(tc: T.Config, obs: seq<T.Obs>, f: L.Fit)
    requires T.ValidConfig(tc) && L.Classified(tc, obs, f)
    ensures f.nInliers == |Chosen(f.inlier, f.inlier, true)|
  {
    RaisedCount(f.inlier);
    assert T.Consistents(tc, f.x, f.y, obs, f.originT) == Raised(f.inlier);
  }

  lemma CutDownClassified(c: Tuning, lat0: real, lng0: real, rem: seq<Vote>, f: L.Fit, cl: Cluster)
    requires ValidTuning(c) && L.Classified(c.link.travel, AllObs(c, lat0, lng0, rem), f) && f.nInliers >= 2
    requires cl == Cluster(Chosen(rem, f.inlier, true), CutDown(f), lat0, lng0, cl.group)
    ensures Fitted(c, cl)
  {
    hide L.ClassifiedAt, Chosen, Position, T.Consistents, T.Consistent, ObsOf;
    var obs, fl, tc := AllObs(c, lat0, lng0, rem), f.inlier, c.link.travel;
    var kept := AllObs(c, lat0, lng0, cl.votes);
    SameCount(rem, fl, fl, true);
    SameCount(f.phase, fl, fl, true);
    SameCount(f.residual, fl, fl, true);
    SameCount(f.hypo, fl, fl, true);
    ConsistentsAreInliers(tc, obs, f);
    forall j | 0 <= j < |kept|
      ensures cl.fit.inlier[j]
      ensures L.ClassifiedAt(tc, kept[j], cl.fit, cl.fit.inlier[j], cl.fit.phase[j], cl.fit.residual[j], cl.fit.hypo[j])
    {
      ChosenAt(rem, fl, j);
      ChosenAt(fl, fl, j);
      ChosenAt(f.phase, fl, j);
      ChosenAt(f.residual, fl, j);
      ChosenAt(f.hypo, fl, j);
      var i := Position(fl, j);
      assert kept[j] == obs[i];
      SameClassification(tc, obs[i], f, cl.fit, fl[i], f.phase[i], f.residual[i], f.hypo[i]);
    }
    AllConsistent(tc, kept, cl.fit);
  }

  /** A classification depends only on the hypothesis. */
  lemma SameClassification(tc: T.Config, o: T.Obs, f: L.Fit, g: L.Fit, inlier: bool, phase: L.Phase, residual: real,
                           hypo: real)
    requires T.ValidConfig(tc) && L.ClassifiedAt(tc, o, f, inlier, phase, residual, hypo)
    requires f.x == g.x && f.y == g.y && f.originT == g.originT
    ensures L.ClassifiedAt(tc, o, g, inlier, phase, residual, hypo)
  {
  }

  lemma AllConsistent(tc: T.Config, kept: seq<T.Obs>, g: L.Fit)
    requires T.ValidConfig(tc) && |g.inlier| == |g.phase| == |g.residual| == |g.hypo| == |kept|
    requires forall j :: 0 <= j < |kept| ==>
               g.inlier[j] && L.ClassifiedAt(tc, kept[j], g, g.inlier[j], g.phase[j], g.residual[j], g.hypo[j])
    ensures |T.Consistents(tc, g.x, g.y, kept, g.originT)| == |kept|
  {
    RaisedCount(g.inlier);
    ChosenAll(g.inlier, g.inlier);
    forall j | 0 <= j < |kept| ensures T.Consistent(tc, g.x, g.y, kept[j], g.originT) {
      assert L.ClassifiedAt(tc, kept[j], g, g.inlier[j], g.phase[j], g.residual[j], g.hypo[j]);
    }
    hide L.ClassifiedAt, T.Consistent;
    assert T.Consistents(tc, g.x, g.y, kept, g.originT) == Raised(g.inlier);
  }

  /** The separation of the first i votes. */
  ghost predicate SeparatedTo(rem: seq<Vote>, f: L.Fit, i: nat, ins: seq<Vote>, rest: seq<Vote>, inlier: seq<bool>,
                              phase: seq<L.Phase>, residual: seq<real>, hypo: seq<real>)
    requires i <= |rem| == |f.inlier| == |f.phase| == |f.residual| == |f.hypo|
  {
    var fl := f.inlier[..i];
    && ins == Chosen(rem[..i], fl, true) && rest == Chosen(rem[..i], fl, false)
    && inlier == Chosen(fl, fl, true) && phase == Chosen(f.phase[..i], fl, true)
    && residual == Chosen(f.residual[..i], fl, true) && hypo == Chosen(f.hypo[..i], fl, true)
  }

  lemma SeparateNext(rem: seq<Vote>, f: L.Fit, i: nat, ins: seq<Vote>, rest: seq<Vote>, inlier: seq<bool>,
                     phase: seq<L.Phase>, residual: seq<real>, hypo: seq<real>)
    requires i < |rem| == |f.inlier| == |f.phase| == |f.residual| == |f.hypo|
    requires SeparatedTo(rem, f, i, ins, rest, inlier, phase, residual, hypo)
    ensures if f.inlier[i]
            then SeparatedTo(rem, f, i + 1, ins + [rem[i]], rest, inlier + [true], phase + [f.phase[i]],
                             residual + [f.residual[i]], hypo + [f.hypo[i]])
            else SeparatedTo(rem, f, i + 1, ins, rest + [rem[i]], inlier, phase, residual, hypo)
  {
    hide Chosen;
    ChosenStep(rem, f.inlier, i, true);
    ChosenStep(rem, f.inlier, i, false);
    ChosenStep(f.inlier, f.inlier, i, true);
    ChosenStep(f.phase, f.inlier, i, true);
    ChosenStep(f.residual, f.inlier, i, true);
    ChosenStep(f.hypo, f.inlier, i, true);
  }

  /** Separates the explained votes from the others, cutting the fit's arrays down to the explained ones. */
  method Separate(rem: seq<Vote>, f: L.Fit) returns (ins: seq<Vote>, rest: seq<Vote>, fin: L.Fit)
    requires |rem| == |f.inlier| == |f.phase| == |f.residual| == |f.hypo|
    ensures ins == Chosen(rem, f.inlier, true) && rest == Chosen(rem, f.inlier, false) && fin == CutDown(f)
  {
    var inlier, phase, residual, hypo := [], [], [], [];
    ins, rest := [], [];
    assert SeparatedTo(rem, f, 0, ins, rest, inlier, phase, residual, hypo);
    hide SeparatedTo, Chosen;
    for i := 0 to |rem|
      invariant SeparatedTo(rem, f, i, ins, rest, inlier, phase, residual, hypo)
    {
      SeparateNext(rem, f, i, ins, rest, inlier, phase, residual, hypo);
      if f.inlier[i] {
        ins := ins + [rem[i]];
        inlier, phase := inlier + [true], phase + [f.phase[i]];
        residual, hypo := residual + [f.residual[i]], hypo + [f.hypo[i]];
      } else {
        rest := rest + [rem[i]];
      }
    }
    Separated(rem, f, ins, rest, inlier, phase, residual, hypo);
    fin := f.(inlier := inlier, phase := phase, residual := residual, hypo := hypo);
  }

  lemma Separated(rem: seq<Vote>, f: L.Fit, ins: seq<Vote>, rest: seq<Vote>, inlier: seq<bool>,
                  phase: seq<L.Phase>, residual: seq<real>, hypo: seq<real>)
    requires |rem| == |f.inlier| == |f.phase| == |f.residual| == |f.hypo|
    requires SeparatedTo(rem, f, |rem|, ins, rest, inlier, phase, residual, hypo)
    ensures ins == Chosen(rem, f.inlier, true) && rest == Chosen(rem, f.inlier, false)
    ensures f.(inlier := inlier, phase := phase, residual := residual, hypo := hypo) == CutDown(f)
  {
    hide Chosen;
    var n := |rem|;
    assert rem[..n] == rem && f.inlier[..n] == f.inlier && f.phase[..n] == f.phase;
    assert f.residual[..n] == f.residual && f.hypo[..n] == f.hypo;
  }

  lemma ChosenStep<A>(xs: seq<A>, flags: seq<bool>, i: nat, w: bool)
    requires i < |xs| == |flags|
    ensures Chosen(xs[..i + 1], flags[..i + 1], w)
            == if flags[i] == w then Chosen(xs[..i], flags[..i], w) + [xs[i]] else Chosen(xs[..i], flags[..i], w)
  {
    assert xs[..i + 1][..i] == xs[..i] && flags[..i + 1][..i] == flags[..i];
    assert Chosen(xs[..i], flags[..i], w) + [] == Chosen(xs[..i], flags[..i], w);
  }

  /** f is where the locator puts the source of the votes, seen from this centre. */
  ghost predicate LocatedAt(c: Tuning, vs: seq<Vote>, lat0: real, lng0: real, f: L.Fit)
    requires Linking.ValidRules(c.link)
  {
    var obs := AllObs(c, lat0, lng0, vs);
    T.Tolerant(obs) && L.Classified(c.link.travel, obs, f) && L.LocatedLarge(c.link.travel, obs, f)
  }

  /** Seen from the mean position, f is where the locator puts the source of the votes. */
  ghost predicate LocatedFor(c: Tuning, vs: seq<Vote>, f: L.Fit)
    requires Linking.ValidRules(c.link) && vs != []
  {
    LocatedAt(c, vs, Latitudes(vs) / |vs| as real, Longitudes(vs) / |vs| as real, f)
  }

  /**
   The cluster holds every vote that the source located for `rem` explains, which are the flagged ones, and that
   source's view of them.
   */
  ghost predicate PeeledFrom(c: Tuning, rem: seq<Vote>, flags: seq<bool>, cl: Cluster)
    requires Linking.ValidRules(c.link)
  {
    && rem != [] && cl.lat0 == Latitudes(rem) / |rem| as real && cl.lng0 == Longitudes(rem) / |rem| as real
    && exists f :: PeeledBy(c, rem, flags, cl, f)
  }

  ghost predicate PeeledBy(c: Tuning, rem: seq<Vote>, flags: seq<bool>, cl: Cluster, f: L.Fit)
    requires Linking.ValidRules(c.link) && rem != []
  {
    && LocatedFor(c, rem, f) && f.inlier == flags
    && |flags| == |f.phase| == |f.residual| == |f.hypo| == |rem|
    && cl.votes == Chosen(rem, flags, true) && cl.fit == CutDown(f)
  }

  /**
   mark assigns every vote of the group to a cluster, or to the remainder; each cluster is exactly what its located
   source explains of the votes left by the clusters before it.
   */
  ghost predicate Peeled(c: Tuning, grp: seq<Vote>, cls: seq<Cluster>, mark: seq<nat>)
    requires Linking.ValidRules(c.link)
  {
    && |mark| == |grp| && (forall i :: 0 <= i < |mark| ==> mark[i] <= |cls|)
    && forall k :: 0 <= k < |cls| ==> PeeledAt(c, grp, cls[k], mark, k)
  }

  ghost predicate PeeledAt(c: Tuning, grp: seq<Vote>, cl: Cluster, mark: seq<nat>, k: nat)
    requires Linking.ValidRules(c.link) && |mark| == |grp|
  {
    && cl.votes == Labelled(grp, mark, k) && cl.group == grp && Fitted(c, cl)
    && PeeledFrom(c, From(grp, mark, k), Flags(mark, k), cl)
  }

  /** What is left is too little for a cluster, or the source located for it explains fewer than two of it. */
  ghost predicate Exhausted(c: Tuning, rest: seq<Vote>)
    requires Linking.ValidRules(c.link)
  {
    |rest| < 2 || exists f :: LocatedFor(c, rest, f) && f.nInliers < 2
  }

  ghost predicate Extracted(c: Tuning, grp: seq<Vote>, cls: seq<Cluster>, mark: seq<nat>)
    requires Linking.ValidRules(c.link)
  {
    Peeled(c, grp, cls, mark) && Exhausted(c, Labelled(grp, mark, |cls|))
  }

  /** The clusters are an extraction of the group. */
  ghost predicate ExtractionOf(c: Tuning, grp: seq<Vote>, cls: seq<Cluster>)
    requires Linking.ValidRules(c.link)
  {
    exists mark :: Extracted(c, grp, cls, mark)
  }

  lemma PeelOne(c: Tuning, grp: seq<Vote>, cls: seq<Cluster>, mark: seq<nat>, flags: seq<bool>, cl: Cluster)
    returns (mark2: seq<nat>)
    requires Linking.ValidRules(c.link) && Peeled(c, grp, cls, mark) && |flags| == |Labelled(grp, mark, |cls|)|
    requires Fitted(c, cl) && cl.group == grp && cl.votes == Chosen(Labelled(grp, mark, |cls|), flags, true)
    requires PeeledFrom(c, Labelled(grp, mark, |cls|), flags, cl)
    ensures Peeled(c, grp, cls + [cl], mark2)
    ensures Labelled(grp, mark2, |cls| + 1) == Chosen(Labelled(grp, mark, |cls|), flags, false)
  {
    hide Fitted, PeeledFrom, Chosen, Labelled, From, Relabel, Flags;
    LabelledSize(grp, mark, mark, |cls|);
    mark2 := Relabel(mark, |cls|, flags);
    RelabelFlags(mark, |cls|, flags);
    Relabelled(grp, mark, |cls|, flags);
    FromLast(grp, mark, |cls|);
    var more := cls + [cl];
    forall k | 0 <= k < |more| ensures PeeledAt(c, grp, more[k], mark2, k) {
      RelabelKeepsFrom(grp, mark, |cls|, flags, k);
      if k < |cls| {
        assert PeeledAt(c, grp, cls[k], mark, k);
        RelabelKeeps(grp, mark, |cls|, flags, k);
        RelabelKeepsFlags(mark, |cls|, flags, k);
      }
    }
  }

  lemma PeelWitness(c: Tuning, rem: seq<Vote>, f: L.Fit, cl: Cluster)
    requires Linking.ValidRules(c.link) && rem != [] && LocatedFor(c, rem, f)
    requires |f.inlier| == |f.phase| == |f.residual| == |f.hypo| == |rem|
    requires cl.lat0 == Latitudes(rem) / |rem| as real && cl.lng0 == Longitudes(rem) / |rem| as real
    requires cl.votes == Chosen(rem, f.inlier, true) && cl.fit == CutDown(f)
    ensures PeeledFrom(c, rem, f.inlier, cl)
  {
    hide LocatedFor, CutDown, Chosen, Latitudes, Longitudes;
    assert PeeledBy(c, rem, f.inlier, cl, f);
  }

  /** Peels point-source clusters off a group until too little is left to explain. */
  method Extract(c: Tuning, grp: seq<Vote>) returns (cls: seq<Cluster>, ghost mark: seq<nat>)
    requires ValidTuning(c)
    ensures Extracted(c, grp, cls, mark)
    ensures ExtractionOf(c, grp, cls)
  {
    hide Peeled, PeeledFrom, Fitted, L.Classified, L.LocatedLarge, T.Tolerant, ValidTuning;
    assert Linking.ValidRules(c.link) by { TuningLinks(c); }
    cls, mark := [], seq(|grp|, _ => 0);
    var rem := grp;
    NothingPeeled(c, grp, mark);
    while |rem| >= 2
      invariant |mark| == |grp| && Peeled(c, grp, cls, mark) && rem == Labelled(grp, mark, |cls|)
      decreases |rem|
    {
      var lat0, lng0 := Centroid(rem);
      var obs := AllObs(c, lat0, lng0, rem);
      TausPositive(c, lat0, lng0, rem);
      var f := L.LocateLarge(c.link.travel, obs);
      ClassifiedSizes(c.link.travel, obs, f);
      assert LocatedFor(c, rem, f);
      if f.nInliers < 2 { return; }
      var ins, rest, fin := Separate(rem, f);
      var cl := Cluster(ins, fin, lat0, lng0, grp);
      CutDownClassified(c, lat0, lng0, rem, f, cl);
      PeelWitness(c, rem, f, cl);
      FittedSize(c, cl);
      BothSides(rem, f.inlier);
      ghost var mark2 := PeelOne(c, grp, cls, mark, f.inlier, cl);
      PeeledSize(c, grp, cls + [cl], mark2);
      cls, mark, rem := cls + [cl], mark2, rest;
    }
  }

  lemma TuningLinks(c: Tuning)
    requires ValidTuning(c)
    ensures Linking.ValidRules(c.link)
  {
  }

  lemma ClassifiedSizes(tc: T.Config, obs: seq<T.Obs>, f: L.Fit)
    requires T.ValidConfig(tc) && L.Classified(tc, obs, f)
    ensures |f.inlier| == |f.phase| == |f.residual| == |f.hypo| == |obs|
  {
  }

  lemma FittedSize(c: Tuning, cl: Cluster)
    requires Linking.ValidRules(c.link) && Fitted(c, cl)
    ensures |cl.votes| >= 2
  {
  }

  lemma PeeledSize(c: Tuning, grp: seq<Vote>, cls: seq<Cluster>, mark: seq<nat>)
    requires Linking.ValidRules(c.link) && Peeled(c, grp, cls, mark)
    ensures |mark| == |grp|
  {
  }

  lemma NothingPeeled(c: Tuning, grp: seq<Vote>, mark: seq<nat>)
    requires Linking.ValidRules(c.link) && |mark| == |grp| && forall i :: 0 <= i < |mark| ==> mark[i] == 0
    ensures Peeled(c, grp, [], mark) && Labelled(grp, mark, 0) == grp
  {
    LabelledAll(grp, mark, 0);
  }

  /** The mean position. */
  method Centroid(vs: seq<Vote>) returns (lat0: real, lng0: real)
    requires vs != []
    ensures lat0 == Latitudes(vs) / |vs| as real && lng0 == Longitudes(vs) / |vs| as real
  {
    lat0, lng0 := 0.0, 0.0;
    for i := 0 to |vs|
      invariant lat0 == Latitudes(vs[..i]) && lng0 == Longitudes(vs[..i])
    {
      assert vs[..i + 1][..i] == vs[..i];
      lat0, lng0 := lat0 + vs[i].lat, lng0 + vs[i].lng;
    }
    assert vs[..|vs|] == vs;
    lat0, lng0 := lat0 / |vs| as real, lng0 / |vs| as real;
  }

  function Latitudes(vs: seq<Vote>): real { if vs == [] then 0.0 else Latitudes(vs[..|vs| - 1]) + vs[|vs| - 1].lat }

  function Longitudes(vs: seq<Vote>): real { if vs == [] then 0.0 else Longitudes(vs[..|vs| - 1]) + vs[|vs| - 1].lng }

  // ---------------------------------------------------------------------
  // Vote keys
  // ---------------------------------------------------------------------

  function KeySeq(vs: seq<Vote>): (r: seq<VoteKey>)
    ensures |r| == |vs| && forall i :: 0 <= i < |vs| ==> r[i] == vs[i].key
  {
    seq(|vs|, i requires 0 <= i < |vs| => vs[i].key)
  }

  /** Every key of every cluster, with multiplicity. */
  ghost function KeyBag(cls: seq<Cluster>): multiset<VoteKey> {
    if cls == [] then multiset{} else KeyBag(cls[..|cls| - 1]) + multiset(KeySeq(cls[|cls| - 1].votes))
  }

  lemma {:induction false} KeyBagConcat(a: seq<Cluster>, b: seq<Cluster>)
    ensures KeyBag(a + b) == KeyBag(a) + KeyBag(b)
  {
    if b == [] {
      assert a + b == a;
    } else {
      assert (a + b)[..|a + b| - 1] == a + b[..|b| - 1];
      KeyBagConcat(a, b[..|b| - 1]);
    }
  }

  lemma {:induction false} LabelledKeys(vs: seq<Vote>, mark: seq<nat>, k: nat)
    requires |mark| == |vs|
    ensures KeySeq(Labelled(vs, mark, k)) == Labelled(KeySeq(vs), mark, k)
  {
    if vs != [] {
      var n := |vs| - 1;
      LabelledKeys(vs[..n], mark[..n], k);
      assert KeySeq(vs)[..n] == KeySeq(vs[..n]);
    }
  }

  lemma {:induction false} PeeledBag(c: Tuning, grp: seq<Vote>, cls: seq<Cluster>, mark: seq<nat>, m: nat)
    requires Linking.ValidRules(c.link) && Peeled(c, grp, cls, mark) && m <= |cls|
    ensures KeyBag(cls[..m]) == Gathered(KeySeq(grp), mark, m)
  {
    hide Fitted, PeeledFrom, Labelled, From, Flags;
    if m > 0 {
      assert PeeledAt(c, grp, cls[m - 1], mark, m - 1);
      PeeledBag(c, grp, cls, mark, m - 1);
      assert cls[..m][..m - 1] == cls[..m - 1];
      LabelledKeys(grp, mark, m - 1);
    }
  }

  /** The clusters of a group use each of its votes at most once; with the remainder they make up the group. */
  lemma PeeledConserves(c: Tuning, grp: seq<Vote>, cls: seq<Cluster>, mark: seq<nat>)
    requires Linking.ValidRules(c.link) && Peeled(c, grp, cls, mark)
    ensures KeyBag(cls) + multiset(KeySeq(Labelled(grp, mark, |cls|))) == multiset(KeySeq(grp))
  {
    PeeledBag(c, grp, cls, mark, |cls|);
    assert cls[..|cls|] == cls;
    LabelsPartition(KeySeq(grp), mark, |cls| + 1);
    LabelledKeys(grp, mark, |cls|);
  }

  // ---------------------------------------------------------------------
  // The cache of solved groups
  // ---------------------------------------------------------------------

  /** What a tick reads of a vote: its time and its deviation can change while its key stays. */
  datatype Reading = Reading(key: VoteKey, t: real, sigma: real)

  function ReadingOf(v: Vote): Reading { Reading(v.key, v.t, v.sigma) }

  /** What the cache distinguishes of a reading: the key, and the time and the deviation as printed. */
  datatype Mark = Mark(key: VoteKey, t: Decimal, sigma: Decimal)

  function MarkOf(r: Reading): Mark { Mark(r.key, Printed(r.t), Printed(r.sigma)) }

  function Signature(vs: seq<Vote>): (r: seq<Mark>)
    ensures |r| == |vs|
  {
    seq(|vs|, i requires 0 <= i < |vs| => MarkOf(ReadingOf(vs[i])))
  }

  /** No vote key has been read with two different times or deviations that print alike. */
  ghost predicate ToldApart(seen: set<Reading>) {
    forall r, s :: r in seen && s in seen && MarkOf(r) == MarkOf(s) ==> r == s
  }

  lemma SameMarks(a: seq<Vote>, b: seq<Vote>)
    requires Signature(a) == Signature(b)
    ensures |a| == |b|
    ensures forall i :: 0 <= i < |a| ==> MarkOf(ReadingOf(a[i])) == MarkOf(ReadingOf(b[i]))
  {
    hide MarkOf;
    forall i | 0 <= i < |a| ensures MarkOf(ReadingOf(a[i])) == MarkOf(ReadingOf(b[i])) {
      assert Signature(a)[i] == Signature(b)[i];
    }
  }

  /** The votes stand where their units do. */
  ghost predicate Placed(at: UnitKey -> (real, real), vs: seq<Vote>) {
    forall v :: v in vs ==> (v.lat, v.lng) == at(v.key.unit)
  }

  /** The readings of the votes are among the known ones. */
  ghost predicate Within(seen: set<Reading>, vs: seq<Vote>) { forall v :: v in vs ==> ReadingOf(v) in seen }

  function Readings(vs: seq<Vote>): set<Reading> { set v | v in vs :: ReadingOf(v) }

  lemma WithinReadings(vs: seq<Vote>)
    ensures Within(Readings(vs), vs)
  {
  }

  /** The clusters were extracted from a group with this signature, of votes placed and read like all others. */
  ghost predicate Solved(c: Tuning, at: UnitKey -> (real, real), seen: set<Reading>, sig: seq<Mark>, cls: seq<Cluster>)
    requires Linking.ValidRules(c.link)
  {
    exists grp :: SolvedFrom(c, at, seen, sig, cls, grp)
  }

  ghost predicate SolvedFrom(c: Tuning, at: UnitKey -> (real, real), seen: set<Reading>, sig: seq<Mark>,
                             cls: seq<Cluster>, grp: seq<Vote>)
    requires Linking.ValidRules(c.link)
  {
    Signature(grp) == sig && Placed(at, grp) && Within(seen, grp) && ExtractionOf(c, grp, cls)
  }

  ghost predicate CacheOk(c: Tuning, at: UnitKey -> (real, real), seen: set<Reading>,
                          cache: map<seq<Mark>, seq<Cluster>>)
    requires Linking.ValidRules(c.link)
  {
    forall sig :: sig in cache ==> Solved(c, at, seen, sig, cache[sig])
  }

  lemma CacheLater(c: Tuning, at: UnitKey -> (real, real), seen: set<Reading>, seen2: set<Reading>,
                   cache: map<seq<Mark>, seq<Cluster>>)
    requires Linking.ValidRules(c.link) && CacheOk(c, at, seen, cache) && seen <= seen2
    ensures CacheOk(c, at, seen2, cache)
  {
    hide Signature, ExtractionOf, Placed;
    forall sig | sig in cache ensures Solved(c, at, seen2, sig, cache[sig]) {
      assert Solved(c, at, seen, sig, cache[sig]);
      var grp :| SolvedFrom(c, at, seen, sig, cache[sig], grp);
      assert SolvedFrom(c, at, seen2, sig, cache[sig], grp);
    }
  }

  // ---------------------------------------------------------------------
  // What a solution depends on
  // ---------------------------------------------------------------------

  /** Votes with the same key, place, time and deviation: all that association looks at. */
  predicate SameView(v: Vote, w: Vote) {
    v.key == w.key && v.lat == w.lat && v.lng == w.lng && v.t == w.t && v.sigma == w.sigma
  }

  ghost predicate Alike(a: seq<Vote>, b: seq<Vote>) {
    |a| == |b| && forall i :: 0 <= i < |a| ==> SameView(a[i], b[i])
  }

  /** The same sources explain the same votes, but for what a vote holds besides key, place, time and deviation. */
  ghost predicate Reproduces(cls: seq<Cluster>, sol: seq<Cluster>) {
    |cls| == |sol| && forall k :: 0 <= k < |cls| ==> SameSource(cls[k], sol[k])
  }

  ghost predicate SameSource(a: Cluster, b: Cluster) {
    a.fit == b.fit && a.lat0 == b.lat0 && a.lng0 == b.lng0 && Alike(a.votes, b.votes) && Alike(a.group, b.group)
  }

  lemma {:induction false} AlikeLabelled(a: seq<Vote>, b: seq<Vote>, mark: seq<nat>, k: nat)
    requires Alike(a, b) && |mark| == |a|
    ensures Alike(Labelled(a, mark, k), Labelled(b, mark, k)) && Alike(From(a, mark, k), From(b, mark, k))
  {
    hide SameView;
    if a != [] {
      var n := |a| - 1;
      AlikeLabelled(a[..n], b[..n], mark[..n], k);
    }
  }

  lemma {:induction false} AlikeSums(a: seq<Vote>, b: seq<Vote>)
    requires Alike(a, b)
    ensures Latitudes(a) == Latitudes(b) && Longitudes(a) == Longitudes(b)
  {
    if a != [] { AlikeSums(a[..|a| - 1], b[..|a| - 1]); }
  }

  lemma AlikeObs(c: Tuning, lat0: real, lng0: real, a: seq<Vote>, b: seq<Vote>)
    requires Alike(a, b)
    ensures AllObs(c, lat0, lng0, a) == AllObs(c, lat0, lng0, b)
  {
    hide Tau;
  }

  lemma AlikeLocated(c: Tuning, a: seq<Vote>, b: seq<Vote>, f: L.Fit)
    requires Linking.ValidRules(c.link) && Alike(a, b) && a != [] && LocatedFor(c, a, f)
    ensures LocatedFor(c, b, f)
  {
    hide SameView, L.Classified, L.LocatedLarge, T.Tolerant, Latitudes, Longitudes, AllObs;
    AlikeSums(a, b);
    AlikeObs(c, Latitudes(a) / |a| as real, Longitudes(a) / |a| as real, a, b);
  }

  lemma AlikeFitted(c: Tuning, a: Cluster, b: Cluster)
    requires Linking.ValidRules(c.link) && Fitted(c, a) && SameSource(a, b)
    ensures Fitted(c, b)
  {
    hide SameView, L.Classified, AllObs;
    AlikeObs(c, a.lat0, a.lng0, a.votes, b.votes);
  }

  lemma AlikePeeled(c: Tuning, a: seq<Vote>, b: seq<Vote>, flags: seq<bool>, cl: Cluster, cl2: Cluster)
    requires Linking.ValidRules(c.link) && Alike(a, b) && PeeledFrom(c, a, flags, cl)
    requires cl2.fit == cl.fit && cl2.lat0 == cl.lat0 && cl2.lng0 == cl.lng0
    requires |flags| == |b| && cl2.votes == Chosen(b, flags, true)
    ensures PeeledFrom(c, b, flags, cl2)
  {
    hide SameView, LocatedFor, CutDown, Chosen, Latitudes, Longitudes;
    var f :| PeeledBy(c, a, flags, cl, f);
    AlikeSums(a, b);
    AlikeLocated(c, a, b, f);
    assert PeeledBy(c, b, flags, cl2, f);
  }

  lemma AlikeExhausted(c: Tuning, a: seq<Vote>, b: seq<Vote>)
    requires Linking.ValidRules(c.link) && Alike(a, b) && Exhausted(c, a)
    ensures Exhausted(c, b)
  {
    hide SameView, LocatedFor;
    if |a| >= 2 {
      var f :| LocatedFor(c, a, f) && f.nInliers < 2;
      AlikeLocated(c, a, b, f);
    }
  }

  /** The clusters of a group, with the votes of a group like it. */
  ghost function Revoted(cls: seq<Cluster>, b: seq<Vote>, mark: seq<nat>): (sol: seq<Cluster>)
    requires |mark| == |b|
    ensures |sol| == |cls|
  {
    seq(|cls|, k requires 0 <= k < |cls| => cls[k].(votes := Labelled(b, mark, k), group := b))
  }

  lemma AlikePeeledAt(c: Tuning, a: seq<Vote>, b: seq<Vote>, cl: Cluster, mark: seq<nat>, k: nat)
    requires Linking.ValidRules(c.link) && Alike(a, b) && |mark| == |a| && PeeledAt(c, a, cl, mark, k)
    ensures var cl2 := cl.(votes := Labelled(b, mark, k), group := b);
            PeeledAt(c, b, cl2, mark, k) && SameSource(cl, cl2)
  {
    hide SameView, Fitted, PeeledFrom, Labelled, From, Flags, Chosen;
    var cl2 := cl.(votes := Labelled(b, mark, k), group := b);
    AlikeLabelled(a, b, mark, k);
    AlikeFitted(c, cl, cl2);
    FlagsChoose(b, mark, k);
    AlikePeeled(c, From(a, mark, k), From(b, mark, k), Flags(mark, k), cl, cl2);
  }

  /** Groups that look alike have the same extractions, but for what association does not look at. */
  lemma AlikeExtraction(c: Tuning, a: seq<Vote>, b: seq<Vote>, cls: seq<Cluster>) returns (sol: seq<Cluster>)
    requires Linking.ValidRules(c.link) && Alike(a, b) && ExtractionOf(c, a, cls)
    ensures ExtractionOf(c, b, sol) && Reproduces(cls, sol)
  {
    hide SameView, PeeledAt, Exhausted, Labelled;
    var mark :| Extracted(c, a, cls, mark);
    sol := Revoted(cls, b, mark);
    forall k | 0 <= k < |cls| ensures PeeledAt(c, b, sol[k], mark, k) && SameSource(cls[k], sol[k]) {
      AlikePeeledAt(c, a, b, cls[k], mark, k);
    }
    AlikeLabelled(a, b, mark, |cls|);
    AlikeExhausted(c, Labelled(a, mark, |cls|), Labelled(b, mark, |cls|));
    assert Extracted(c, b, sol, mark);
  }

  // ---------------------------------------------------------------------
  // What a cached solution solves
  // ---------------------------------------------------------------------

  /** The same votes, but for times and deviations that print alike. */
  ghost predicate Retimed(ref: seq<Vote>, grp: seq<Vote>) {
    |ref| == |grp| && forall i :: 0 <= i < |grp| ==>
      && ref[i] == grp[i].(t := ref[i].t, sigma := ref[i].sigma)
      && MarkOf(ReadingOf(ref[i])) == MarkOf(ReadingOf(grp[i]))
  }

  /**
   The clusters have the votes and the sources of an extraction of the group, possibly with other times and deviations,
   which have been seen before and print like those of the group.
   */
  ghost predicate Solves(c: Tuning, seen: set<Reading>, grp: seq<Vote>, cls: seq<Cluster>)
    requires Linking.ValidRules(c.link)
  {
    exists ref, sol :: SolvesBy(c, seen, grp, cls, ref, sol)
  }

  ghost predicate SolvesBy(c: Tuning, seen: set<Reading>, grp: seq<Vote>, cls: seq<Cluster>, ref: seq<Vote>,
                           sol: seq<Cluster>)
    requires Linking.ValidRules(c.link)
  {
    Retimed(ref, grp) && Within(seen, ref) && ExtractionOf(c, ref, sol) && Reproduces(cls, sol)
  }

  /** The group with the times and deviations of another of the same length. */
  function Timed(grp: seq<Vote>, g: seq<Vote>): (ref: seq<Vote>)
    requires |g| == |grp|
    ensures |ref| == |grp|
  {
    seq(|grp|, i requires 0 <= i < |grp| => grp[i].(t := g[i].t, sigma := g[i].sigma))
  }

  lemma TimedLike(at: UnitKey -> (real, real), seen: set<Reading>, grp: seq<Vote>, g: seq<Vote>)
    requires Signature(g) == Signature(grp) && Placed(at, g) && Placed(at, grp) && Within(seen, g)
    ensures |g| == |grp| && Retimed(Timed(grp, g), grp) && Within(seen, Timed(grp, g)) && Alike(g, Timed(grp, g))
  {
    SameMarks(g, grp);
    hide Printed, Signature;
    var ref := Timed(grp, g);
    forall i | 0 <= i < |grp| ensures SameView(g[i], ref[i]) { assert g[i] in g && grp[i] in grp; }
    forall v | v in ref ensures ReadingOf(v) in seen {
      var i :| 0 <= i < |ref| && ref[i] == v;
      assert g[i] in g;
    }
  }

  /** A solution with the group's signature solves the group. */
  lemma HitSolves(c: Tuning, at: UnitKey -> (real, real), seen: set<Reading>, grp: seq<Vote>, cls: seq<Cluster>)
    requires Linking.ValidRules(c.link) && Placed(at, grp) && Solved(c, at, seen, Signature(grp), cls)
    ensures Solves(c, seen, grp, cls)
  {
    hide Signature, ExtractionOf, Placed, Within, Alike, Retimed, Reproduces;
    var g :| SolvedFrom(c, at, seen, Signature(grp), cls, g);
    TimedLike(at, seen, grp, g);
    var sol := AlikeExtraction(c, g, Timed(grp, g), cls);
    assert SolvesBy(c, seen, grp, cls, Timed(grp, g), sol);
  }

  /** The clusters have the votes and the sources of an extraction of the very group. */
  ghost predicate Reproduced(c: Tuning, grp: seq<Vote>, cls: seq<Cluster>)
    requires Linking.ValidRules(c.link)
  {
    exists sol :: ExtractionOf(c, grp, sol) && Reproduces(cls, sol)
  }

  /** If every vote key's readings have been told apart, a solution reproduces an extraction of the group itself. */
  lemma SolvesExactly(c: Tuning, seen: set<Reading>, grp: seq<Vote>, cls: seq<Cluster>)
    requires Linking.ValidRules(c.link) && ToldApart(seen) && Within(seen, grp) && Solves(c, seen, grp, cls)
    ensures Reproduced(c, grp, cls)
  {
    hide ExtractionOf, Reproduces, Printed;
    var ref, sol :| SolvesBy(c, seen, grp, cls, ref, sol);
    forall i | 0 <= i < |grp| ensures ref[i] == grp[i] { assert ref[i] in ref && grp[i] in grp; }
    assert ref == grp;
  }

  lemma RetimedKeys(ref: seq<Vote>, grp: seq<Vote>)
    requires Retimed(ref, grp)
    ensures KeySeq(ref) == KeySeq(grp)
  {
    hide Printed;
  }

  lemma AlikeKeys(a: seq<Vote>, b: seq<Vote>)
    requires Alike(a, b)
    ensures KeySeq(a) == KeySeq(b)
  {
  }

  lemma {:induction false} ReproducesKeys(cls: seq<Cluster>, sol: seq<Cluster>)
    requires Reproduces(cls, sol)
    ensures KeyBag(cls) == KeyBag(sol)
  {
    hide Alike, KeySeq;
    if cls != [] {
      var n := |cls| - 1;
      ReproducesKeys(cls[..n], sol[..n]);
      AlikeKeys(cls[n].votes, sol[n].votes);
    }
  }

  lemma ReproducesFitted(c: Tuning, cls: seq<Cluster>, sol: seq<Cluster>)
    requires Linking.ValidRules(c.link) && Reproduces(cls, sol) && forall cl :: cl in sol ==> Fitted(c, cl)
    ensures forall cl :: cl in cls ==> Fitted(c, cl)
  {
    hide SameSource, Fitted;
    forall cl | cl in cls ensures Fitted(c, cl) {
      var k :| 0 <= k < |cls| && cls[k] == cl;
      assert sol[k] in sol;
      SameSourceBack(cls[k], sol[k]);
      AlikeFitted(c, sol[k], cls[k]);
    }
  }

  lemma SameSourceBack(a: Cluster, b: Cluster)
    requires SameSource(a, b)
    ensures SameSource(b, a)
  {
  }

  /** A solution's clusters have at least two votes each, are fitted to them, and use no key more than once. */
  lemma SolvesConserves(c: Tuning, seen: set<Reading>, grp: seq<Vote>, cls: seq<Cluster>)
    requires Linking.ValidRules(c.link) && Solves(c, seen, grp, cls)
    ensures KeyBag(cls) <= multiset(KeySeq(grp))
    ensures forall cl :: cl in cls ==> Fitted(c, cl)
  {
    hide Fitted, Retimed, Reproduces, Within, PeeledFrom, Exhausted;
    var ref, sol :| SolvesBy(c, seen, grp, cls, ref, sol);
    var mark :| Extracted(c, ref, sol, mark);
    RetimedKeys(ref, grp);
    PeeledConserves(c, ref, sol, mark);
    forall cl | cl in sol ensures Fitted(c, cl) {
      var k :| 0 <= k < |sol| && sol[k] == cl;
      assert PeeledAt(c, ref, sol[k], mark, k);
    }
    ReproducesKeys(cls, sol);
    ReproducesFitted(c, cls, sol);
  }

  /** A group's solution: from the cache if its signature is known, else extracted from it. */
  method SolveGroup(c: Tuning, grp: seq<Vote>, cache: map<seq<Mark>, seq<Cluster>>, ghost at: UnitKey -> (real, real),
                    ghost seen: set<Reading>)
    returns (cls: seq<Cluster>, cache2: map<seq<Mark>, seq<Cluster>>)
    requires ValidTuning(c) && CacheOk(c, at, seen, cache) && Placed(at, grp) && Within(seen, grp)
    ensures CacheOk(c, at, seen, cache2) && Solves(c, seen, grp, cls)
    ensures cache2 == cache[Signature(grp) := cls]
    ensures if Signature(grp) in cache then cls == cache[Signature(grp)] else ExtractionOf(c, grp, cls)
  {
    hide ExtractionOf, Signature, Placed, Within, Solves;
    var sig := Signature(grp);
    if sig in cache {
      cls, cache2 := cache[sig], cache;
    } else {
      ghost var mark;
      cls, mark := Extract(c, grp);
      assert SolvedFrom(c, at, seen, sig, cls, grp);
      cache2 := cache[sig := cls];
    }
    HitSolves(c, at, seen, grp, cls);
  }

  /** lists holds a solution of each group. */
  ghost predicate AllSolved(c: Tuning, seen: set<Reading>, groups: seq<seq<Vote>>, lists: seq<seq<Cluster>>)
    requires Linking.ValidRules(c.link)
  {
    |lists| == |groups| && forall g :: 0 <= g < |groups| ==> Solves(c, seen, groups[g], lists[g])
  }

  /** A group whose signature was not known, and is not that of a group before it, got an extraction of its own. */
  ghost predicate MissesExtracted(c: Tuning, known: set<seq<Mark>>, groups: seq<seq<Vote>>, lists: seq<seq<Cluster>>)
    requires Linking.ValidRules(c.link)
  {
    |lists| == |groups|
    && forall g :: 0 <= g < |groups| && Signature(groups[g]) !in known + Signatures(groups[..g]) ==>
         ExtractionOf(c, groups[g], lists[g])
  }

  ghost function Flatten<A>(lists: seq<seq<A>>): seq<A> {
    if lists == [] then [] else Flatten(lists[..|lists| - 1]) + lists[|lists| - 1]
  }

  ghost function Signatures(groups: seq<seq<Vote>>): set<seq<Mark>> { set g | g in groups :: Signature(g) }

  /** What association returns: a solution of every component of the link relation, in order of their first votes. */
  ghost predicate Associated(c: Tuning, seen: set<Reading>, votes: seq<Vote>, out: seq<Cluster>, rt: seq<nat>,
                             names: seq<nat>, groups: seq<seq<Vote>>, lists: seq<seq<Cluster>>)
    requires Linking.ValidRules(c.link)
  {
    && Components(c.link, votes, rt) && Grouped(votes, rt, names, groups)
    && AllSolved(c, seen, groups, lists) && out == Flatten(lists)
  }

  lemma SolvedMore(c: Tuning, seen: set<Reading>, groups: seq<seq<Vote>>, i: nat, lists: seq<seq<Cluster>>,
                   cls: seq<Cluster>)
    requires Linking.ValidRules(c.link) && i < |groups| && AllSolved(c, seen, groups[..i], lists)
    requires Solves(c, seen, groups[i], cls)
    ensures AllSolved(c, seen, groups[..i + 1], lists + [cls]) && Flatten(lists + [cls]) == Flatten(lists) + cls
  {
    hide Solves;
    assert (lists + [cls])[..|lists|] == lists;
    var more, gs := lists + [cls], groups[..i + 1];
    forall g | 0 <= g < |gs| ensures Solves(c, seen, gs[g], more[g]) {
      if g < i { assert gs[g] == groups[..i][g]; }
    }
  }

  lemma MissesMore(c: Tuning, known: set<seq<Mark>>, groups: seq<seq<Vote>>, i: nat, lists: seq<seq<Cluster>>,
                   cls: seq<Cluster>)
    requires Linking.ValidRules(c.link) && i < |groups| && MissesExtracted(c, known, groups[..i], lists)
    requires Signature(groups[i]) !in known + Signatures(groups[..i]) ==> ExtractionOf(c, groups[i], cls)
    ensures MissesExtracted(c, known, groups[..i + 1], lists + [cls])
  {
    hide ExtractionOf, Signature, Signatures;
    var more, gs := lists + [cls], groups[..i + 1];
    forall g | 0 <= g < |gs| && Signature(gs[g]) !in known + Signatures(gs[..g])
      ensures ExtractionOf(c, gs[g], more[g])
    {
      if g < i {
        assert gs[..g] == groups[..i][..g] && gs[g] == groups[..i][g];
      } else {
        assert gs[..g] == groups[..i];
      }
    }
  }

  /** Solves every group in turn. */
  method SolveEach(c: Tuning, groups: seq<seq<Vote>>, cache0: map<seq<Mark>, seq<Cluster>>,
                   ghost at: UnitKey -> (real, real), ghost seen: set<Reading>)
    returns (out: seq<Cluster>, cache: map<seq<Mark>, seq<Cluster>>, used: set<seq<Mark>>,
             ghost lists: seq<seq<Cluster>>)
    requires ValidTuning(c) && Linking.ValidRules(c.link) && CacheOk(c, at, seen, cache0)
    requires forall g :: 0 <= g < |groups| ==> Placed(at, groups[g]) && Within(seen, groups[g])
    ensures CacheOk(c, at, seen, cache) && SolvedTo(c, seen, cache0.Keys, groups, lists, out, used, cache.Keys)
    ensures Recalled(cache0, groups, lists, cache)
  {
    hide *;
    out, cache, used, lists := [], cache0, {}, [];
    NoneSolved(c, seen, cache0.Keys, groups);
    NoneRecalled(cache0, groups);
    ghost var keys := cache0.Keys;
    for i := 0 to |groups|
      invariant CacheOk(c, at, seen, cache) && keys == cache.Keys
      invariant SolvedTo(c, seen, cache0.Keys, groups[..i], lists, out, used, keys)
      invariant Recalled(cache0, groups[..i], lists, cache)
    {
      var cls, next := SolveGroup(c, groups[i], cache, at, seen);
      RecallMore(cache0, groups, i, lists, cache, cls);
      SolvedNext(c, seen, cache0.Keys, groups, i, lists, out, used, keys, cls);
      cache, keys := next, keys + {Signature(groups[i])};
      used, out, lists := used + {Signature(groups[i])}, out + cls, lists + [cls];
    }
    assert groups[..|groups|] == groups;
  }

  /** Solves every group, and keeps the solutions that were used. */
  method SolveAll(c: Tuning, groups: seq<seq<Vote>>, cache0: map<seq<Mark>, seq<Cluster>>,
                  ghost at: UnitKey -> (real, real), ghost seen: set<Reading>)
    returns (out: seq<Cluster>, cache: map<seq<Mark>, seq<Cluster>>, ghost lists: seq<seq<Cluster>>)
    requires ValidTuning(c) && CacheOk(c, at, seen, cache0)
    requires forall g :: 0 <= g < |groups| ==> Placed(at, groups[g]) && Within(seen, groups[g])
    ensures CacheOk(c, at, seen, cache) && cache.Keys <= Signatures(groups)
    ensures AllSolved(c, seen, groups, lists) && MissesExtracted(c, cache0.Keys, groups, lists)
    ensures out == Flatten(lists) && ListsRecalled(cache0, groups, lists, cache)
  {
    assert Linking.ValidRules(c.link) by { TuningLinks(c); }
    hide *;
    var all, used;
    out, all, used, lists := SolveEach(c, groups, cache0, at, seen);
    SolvedAll(c, seen, cache0.Keys, groups, lists, out, used, all.Keys);
    Restricted(c, at, seen, all, used);
    RecallUsed(cache0, groups, lists, all, used);
    cache := map sig | sig in all && sig in used :: all[sig];
  }

  /** Every list is the cache's solution for the group's signature, and was before if the signature was known. */
  ghost predicate ListsRecalled(before: map<seq<Mark>, seq<Cluster>>, groups: seq<seq<Vote>>, lists: seq<seq<Cluster>>,
                                after: map<seq<Mark>, seq<Cluster>>)
  {
    |lists| == |groups| && forall g :: 0 <= g < |groups| ==>
      var sig := Signature(groups[g]);
      sig in after && lists[g] == after[sig] && (sig in before ==> lists[g] == before[sig])
  }

  /** The same while the cache still holds everything it held before. */
  ghost predicate Recalled(before: map<seq<Mark>, seq<Cluster>>, groups: seq<seq<Vote>>, lists: seq<seq<Cluster>>,
                           after: map<seq<Mark>, seq<Cluster>>)
  {
    && ListsRecalled(before, groups, lists, after)
    && forall sig :: sig in before ==> sig in after && after[sig] == before[sig]
  }

  lemma NoneRecalled(cache0: map<seq<Mark>, seq<Cluster>>, groups: seq<seq<Vote>>)
    ensures Recalled(cache0, groups[..0], [], cache0)
  {
  }

  lemma RecallMore(cache0: map<seq<Mark>, seq<Cluster>>, groups: seq<seq<Vote>>, i: nat, lists: seq<seq<Cluster>>,
                   cache: map<seq<Mark>, seq<Cluster>>, cls: seq<Cluster>)
    requires i < |groups| && Recalled(cache0, groups[..i], lists, cache)
    requires Signature(groups[i]) in cache ==> cls == cache[Signature(groups[i])]
    ensures Recalled(cache0, groups[..i + 1], lists + [cls], cache[Signature(groups[i]) := cls])
  {
    hide Signature;
    var more, gs, next := lists + [cls], groups[..i + 1], cache[Signature(groups[i]) := cls];
    forall g | 0 <= g < |gs|
      ensures var sig := Signature(gs[g]);
              sig in next && more[g] == next[sig] && (sig in cache0 ==> more[g] == cache0[sig])
    {
      if g < i { assert gs[g] == groups[..i][g]; }
    }
  }

  lemma RecallUsed(cache0: map<seq<Mark>, seq<Cluster>>, groups: seq<seq<Vote>>, lists: seq<seq<Cluster>>,
                   all: map<seq<Mark>, seq<Cluster>>, used: set<seq<Mark>>)
    requires Recalled(cache0, groups, lists, all) && used == Signatures(groups)
    ensures ListsRecalled(cache0, groups, lists, map sig | sig in all && sig in used :: all[sig])
  {
    hide Signature;
    forall g | 0 <= g < |groups| ensures Signature(groups[g]) in used { assert groups[g] in groups; }
  }

  /** The groups have been solved; these are the signatures used, and those in the cache. */
  ghost predicate SolvedTo(c: Tuning, seen: set<Reading>, known: set<seq<Mark>>, groups: seq<seq<Vote>>,
                           lists: seq<seq<Cluster>>, out: seq<Cluster>, used: set<seq<Mark>>, keys: set<seq<Mark>>)
    requires Linking.ValidRules(c.link)
  {
    && AllSolved(c, seen, groups, lists) && MissesExtracted(c, known, groups, lists) && out == Flatten(lists)
    && used == Signatures(groups) && keys == known + used
  }

  lemma SolvedNext(c: Tuning, seen: set<Reading>, known: set<seq<Mark>>, groups: seq<seq<Vote>>, i: nat,
                   lists: seq<seq<Cluster>>, out: seq<Cluster>, used: set<seq<Mark>>, keys: set<seq<Mark>>,
                   cls: seq<Cluster>)
    requires Linking.ValidRules(c.link) && i < |groups|
    requires SolvedTo(c, seen, known, groups[..i], lists, out, used, keys) && Solves(c, seen, groups[i], cls)
    requires Signature(groups[i]) !in keys ==> ExtractionOf(c, groups[i], cls)
    ensures var sig := Signature(groups[i]);
            SolvedTo(c, seen, known, groups[..i + 1], lists + [cls], out + cls, used + {sig}, keys + {sig})
  {
    hide AllSolved, MissesExtracted, Flatten, Signatures, Signature, Solves, ExtractionOf;
    SolvedMore(c, seen, groups, i, lists, cls);
    MissesMore(c, known, groups, i, lists, cls);
    SignatureMore(groups, i);
  }

  lemma SolvedAll(c: Tuning, seen: set<Reading>, known: set<seq<Mark>>, groups: seq<seq<Vote>>,
                  lists: seq<seq<Cluster>>, out: seq<Cluster>, used: set<seq<Mark>>, keys: set<seq<Mark>>)
    requires Linking.ValidRules(c.link) && SolvedTo(c, seen, known, groups, lists, out, used, keys)
    ensures AllSolved(c, seen, groups, lists) && MissesExtracted(c, known, groups, lists) && out == Flatten(lists)
    ensures used == Signatures(groups)
  {
  }

  lemma NoneSolved(c: Tuning, seen: set<Reading>, known: set<seq<Mark>>, groups: seq<seq<Vote>>)
    requires Linking.ValidRules(c.link)
    ensures SolvedTo(c, seen, known, groups[..0], [], [], {}, known)
  {
  }

  lemma SignatureMore(groups: seq<seq<Vote>>, i: nat)
    requires i < |groups|
    ensures Signatures(groups[..i + 1]) == Signatures(groups[..i]) + {Signature(groups[i])}
  {
    assert groups[..i + 1] == groups[..i] + [groups[i]];
    hide Signature;
    forall s | s in Signatures(groups[..i]) ensures s in Signatures(groups[..i + 1]) {
      var g :| g in groups[..i] && Signature(g) == s;
      assert g in groups[..i + 1];
    }
    assert groups[i] in groups[..i + 1];
  }

  lemma Restricted(c: Tuning, at: UnitKey -> (real, real), seen: set<Reading>, cache: map<seq<Mark>, seq<Cluster>>,
                   used: set<seq<Mark>>)
    requires Linking.ValidRules(c.link) && CacheOk(c, at, seen, cache)
    ensures CacheOk(c, at, seen, map sig | sig in cache && sig in used :: cache[sig])
  {
    hide Solved;
  }

  /** The clusters are the association of the votes: nothing for fewer than two, else a solution of every component. */
  ghost predicate AssociationOf(c: Tuning, seen: set<Reading>, votes: seq<Vote>, out: seq<Cluster>)
    requires Linking.ValidRules(c.link)
  {
    if |votes| < 2 then out == []
    else exists rt, names, groups, lists :: Associated(c, seen, votes, out, rt, names, groups, lists)
  }

  /** Fewer than two votes associate to nothing, and leave the cache alone. */
  method Associate(c: Tuning, votes: seq<Vote>, cache0: map<seq<Mark>, seq<Cluster>>,
                   ghost at: UnitKey -> (real, real), ghost seen: set<Reading>)
    returns (out: seq<Cluster>, cache: map<seq<Mark>, seq<Cluster>>,
             ghost rt: seq<nat>, ghost names: seq<nat>, ghost groups: seq<seq<Vote>>, ghost lists: seq<seq<Cluster>>)
    requires ValidTuning(c) && CacheOk(c, at, seen, cache0) && Placed(at, votes) && Within(seen, votes)
    ensures CacheOk(c, at, seen, cache)
    ensures |votes| < 2 ==> out == [] && cache == cache0
    ensures |votes| >= 2 ==>
              Associated(c, seen, votes, out, rt, names, groups, lists)
              && MissesExtracted(c, cache0.Keys, groups, lists) && cache.Keys <= Signatures(groups)
              && ListsRecalled(cache0, groups, lists, cache)
    ensures AssociationOf(c, seen, votes, out)
  {
    if |votes| < 2 {
      return [], cache0, [], [], [], [];
    }
    assert Linking.ValidRules(c.link) by { TuningLinks(c); }
    hide *;
    var gs;
    gs, rt, names := GroupVotes(c.link, votes);
    GroupsWithin(at, seen, votes, rt, names, gs);
    out, cache, lists := SolveAll(c, gs, cache0, at, seen);
    groups := gs;
    assert Associated(c, seen, votes, out, rt, names, groups, lists)
           by { IsAssociated(c, seen, votes, out, rt, names, groups, lists); }
    assert AssociationOf(c, seen, votes, out) by { IsAssociation(c, seen, votes, out, rt, names, groups, lists); }
  }

  lemma GroupsWithin(at: UnitKey -> (real, real), seen: set<Reading>, votes: seq<Vote>, rt: seq<nat>, names: seq<nat>,
                     groups: seq<seq<Vote>>)
    requires Grouped(votes, rt, names, groups) && Placed(at, votes) && Within(seen, votes)
    ensures forall g :: 0 <= g < |groups| ==> Placed(at, groups[g]) && Within(seen, groups[g])
  {
    hide Labelled;
    forall g | 0 <= g < |groups| ensures Placed(at, groups[g]) && Within(seen, groups[g]) {
      LabelledIn(votes, rt, names[g]);
    }
  }

  lemma IsAssociated(c: Tuning, seen: set<Reading>, votes: seq<Vote>, out: seq<Cluster>, rt: seq<nat>, names: seq<nat>,
                     groups: seq<seq<Vote>>, lists: seq<seq<Cluster>>)
    requires Linking.ValidRules(c.link) && Components(c.link, votes, rt) && Grouped(votes, rt, names, groups)
    requires AllSolved(c, seen, groups, lists) && out == Flatten(lists)
    ensures Associated(c, seen, votes, out, rt, names, groups, lists)
  {
    hide Components, Grouped, AllSolved, Flatten;
  }

  lemma IsAssociation(c: Tuning, seen: set<Reading>, votes: seq<Vote>, out: seq<Cluster>, rt: seq<nat>, names: seq<nat>,
                      groups: seq<seq<Vote>>, lists: seq<seq<Cluster>>)
    requires Linking.ValidRules(c.link) && |votes| >= 2
    requires Associated(c, seen, votes, out, rt, names, groups, lists)
    ensures AssociationOf(c, seen, votes, out)
  {
    hide Associated;
  }

  /** Association without a memory: every component's list reproduces an extraction of that very component. */
  ghost predicate ExactAssociationOf(c: Tuning, votes: seq<Vote>, out: seq<Cluster>)
    requires Linking.ValidRules(c.link)
  {
    if |votes| < 2 then out == []
    else exists rt, names, groups, lists :: ExactlyAssociated(c, votes, out, rt, names, groups, lists)
  }

  ghost predicate ExactlyAssociated(c: Tuning, votes: seq<Vote>, out: seq<Cluster>, rt: seq<nat>, names: seq<nat>,
                                    groups: seq<seq<Vote>>, lists: seq<seq<Cluster>>)
    requires Linking.ValidRules(c.link)
  {
    && Components(c.link, votes, rt) && Grouped(votes, rt, names, groups) && out == Flatten(lists)
    && |lists| == |groups| && forall g :: 0 <= g < |groups| ==> Reproduced(c, groups[g], lists[g])
  }

  /** As long as every vote key's readings are told apart, the cache is no more than a memory. */
  lemma AssociationExactly(c: Tuning, seen: set<Reading>, votes: seq<Vote>, out: seq<Cluster>)
    requires Linking.ValidRules(c.link) && ToldApart(seen) && Within(seen, votes) && AssociationOf(c, seen, votes, out)
    ensures ExactAssociationOf(c, votes, out)
  {
    if |votes| >= 2 {
      hide Components, Solves, Reproduced, Labelled, Flatten, ToldApart, Within;
      var rt, names, groups, lists :| Associated(c, seen, votes, out, rt, names, groups, lists);
      forall g | 0 <= g < |groups| ensures Reproduced(c, groups[g], lists[g]) {
        GroupWithin(seen, votes, rt, names, groups, g);
        SolvesExactly(c, seen, groups[g], lists[g]);
      }
      assert ExactlyAssociated(c, votes, out, rt, names, groups, lists);
    }
  }

  lemma GroupWithin(seen: set<Reading>, votes: seq<Vote>, rt: seq<nat>, names: seq<nat>, groups: seq<seq<Vote>>, g: nat)
    requires Grouped(votes, rt, names, groups) && Within(seen, votes) && g < |groups|
    ensures Within(seen, groups[g])
  {
    hide Labelled;
    LabelledIn(votes, rt, names[g]);
  }

  // ---------------------------------------------------------------------
  // Conservation
  // ---------------------------------------------------------------------

  lemma FlattenStep<A>(lists: seq<seq<A>>, k: nat)
    requires k < |lists|
    ensures Flatten(lists[..k + 1]) == Flatten(lists[..k]) + lists[k]
  {
    assert lists[..k + 1][..k] == lists[..k];
  }

  /** lists holds the class of every name. */
  ghost predicate ClassesOf<A>(xs: seq<A>, rt: seq<nat>, names: seq<nat>, lists: seq<seq<A>>) {
    && |rt| == |xs| && |lists| == |names| && Increasing(names) && Named(rt)
    && (forall r: nat :: r in names <==> r < |rt| && rt[r] == r)
    && forall g :: 0 <= g < |names| ==> lists[g] == Labelled(xs, rt, names[g])
  }

  /** Exactly the first k names are below m. */
  ghost predicate CountBelow(names: seq<nat>, k: nat, m: nat) {
    k <= |names| && (forall g :: 0 <= g < k ==> names[g] < m) && forall g :: k <= g < |names| ==> names[g] >= m
  }

  /** The classes of the k names below m are everything labelled below m. */
  lemma {:induction false} ClassesBelow<A>(xs: seq<A>, rt: seq<nat>, names: seq<nat>, lists: seq<seq<A>>, k: nat,
                                           m: nat)
    requires ClassesOf(xs, rt, names, lists) && CountBelow(names, k, m)
    ensures |rt| == |xs| && k <= |lists| && Gathered(xs, rt, m) == multiset(Flatten(lists[..k]))
    decreases m
  {
    hide ClassesOf, CountBelow, Labelled;
    ClassesSizes(xs, rt, names, lists, k, m);
    if m > 0 {
      NameBelow(xs, rt, names, lists, k, m);
      if k > 0 && names[k - 1] == m - 1 {
        ClassesBelow(xs, rt, names, lists, k - 1, m - 1);
        FlattenStep(lists, k - 1);
      } else {
        ClassesBelow(xs, rt, names, lists, k, m - 1);
      }
    }
  }

  lemma ClassesSizes<A>(xs: seq<A>, rt: seq<nat>, names: seq<nat>, lists: seq<seq<A>>, k: nat, m: nat)
    requires ClassesOf(xs, rt, names, lists) && CountBelow(names, k, m)
    ensures |rt| == |xs| && k <= |lists| == |names| && (m == 0 ==> k == 0)
  {
    assert k > 0 ==> names[0] < m;
  }

  /** One step down: the class of m - 1 is the last of the k, or empty. */
  lemma NameBelow<A>(xs: seq<A>, rt: seq<nat>, names: seq<nat>, lists: seq<seq<A>>, k: nat, m: nat)
    requires m > 0 && ClassesOf(xs, rt, names, lists) && CountBelow(names, k, m)
    ensures |rt| == |xs| && k <= |names| == |lists|
    ensures if k > 0 && names[k - 1] == m - 1
            then CountBelow(names, k - 1, m - 1) && lists[k - 1] == Labelled(xs, rt, m - 1)
            else CountBelow(names, k, m - 1) && Labelled(xs, rt, m - 1) == []
  {
    hide Labelled;
    forall g | 0 <= g < k - 1 ensures names[g] < names[k - 1] {}
    if k == 0 || names[k - 1] != m - 1 {
      forall i | 0 <= i < |rt| ensures rt[i] != m - 1 {
        assert rt[i] in names;
        var g :| 0 <= g < |names| && names[g] == rt[i];
      }
      LabelledNone(xs, rt, m - 1);
    }
  }

  /** The groups make up the votes: none is lost and none is in two groups. */
  lemma GroupsMakeUp(c: Rules, votes: seq<Vote>, rt: seq<nat>, names: seq<nat>, groups: seq<seq<Vote>>)
    requires Linking.ValidRules(c) && Components(c, votes, rt) && Grouped(votes, rt, names, groups)
    ensures multiset(Flatten(groups)) == multiset(votes)
  {
    hide Connected, Labelled, Flatten, Gathered;
    forall g | 0 <= g < |names| ensures names[g] < |votes| { assert names[g] in names; }
    assert ClassesOf(votes, rt, names, groups) && CountBelow(names, |names|, |votes|);
    ClassesBelow(votes, rt, names, groups, |names|, |votes|);
    assert groups[..|names|] == groups;
    LabelsPartition(votes, rt, |votes|);
  }

  ghost function KeyLists(groups: seq<seq<Vote>>): (r: seq<seq<VoteKey>>)
    ensures |r| == |groups| && forall g :: 0 <= g < |groups| ==> r[g] == KeySeq(groups[g])
  {
    seq(|groups|, g requires 0 <= g < |groups| => KeySeq(groups[g]))
  }

  lemma GroupKeysMakeUp(c: Rules, votes: seq<Vote>, rt: seq<nat>, names: seq<nat>, groups: seq<seq<Vote>>)
    requires Linking.ValidRules(c) && Components(c, votes, rt) && Grouped(votes, rt, names, groups)
    ensures multiset(Flatten(KeyLists(groups))) == multiset(KeySeq(votes))
  {
    hide Connected, Labelled, Flatten, Gathered;
    var keys, lists := KeySeq(votes), KeyLists(groups);
    forall g | 0 <= g < |names|
      ensures names[g] < |votes| && lists[g] == Labelled(keys, rt, names[g])
    {
      assert names[g] in names;
      LabelledKeys(votes, rt, names[g]);
    }
    assert ClassesOf(keys, rt, names, lists) && CountBelow(names, |names|, |votes|);
    ClassesBelow(keys, rt, names, lists, |names|, |votes|);
    assert lists[..|names|] == lists;
    LabelsPartition(keys, rt, |votes|);
  }

  lemma {:induction false} SolutionsConserve(c: Tuning, seen: set<Reading>, groups: seq<seq<Vote>>,
                                             lists: seq<seq<Cluster>>)
    requires Linking.ValidRules(c.link) && AllSolved(c, seen, groups, lists)
    ensures KeyBag(Flatten(lists)) <= multiset(Flatten(KeyLists(groups)))
    ensures forall cl :: cl in Flatten(lists) ==> Fitted(c, cl)
  {
    hide Solves, Fitted;
    if groups != [] {
      var n := |groups| - 1;
      SolutionsConserve(c, seen, groups[..n], lists[..n]);
      SolvesConserves(c, seen, groups[n], lists[n]);
      KeyBagConcat(Flatten(lists[..n]), lists[n]);
      assert KeyLists(groups)[..n] == KeyLists(groups[..n]);
    }
  }

  /**
   Association uses every vote key at most as often as it was offered (so at most once, as offered keys are
   distinct), and every cluster is a fitted source of at least two votes.
   */
  lemma AssociationConserves(c: Tuning, seen: set<Reading>, votes: seq<Vote>, out: seq<Cluster>, rt: seq<nat>,
                             names: seq<nat>, groups: seq<seq<Vote>>, lists: seq<seq<Cluster>>)
    requires Linking.ValidRules(c.link) && Associated(c, seen, votes, out, rt, names, groups, lists)
    ensures KeyBag(out) <= multiset(KeySeq(votes))
    ensures forall cl :: cl in out ==> Fitted(c, cl)
  {
    hide Components, Grouped, AllSolved, Fitted, Flatten, KeyBag;
    GroupKeysMakeUp(c.link, votes, rt, names, groups);
    SolutionsConserve(c, seen, groups, lists);
  }

  /** The bag does not depend on the order of the clusters. */
  lemma {:induction false} KeyBagPermutation(a: seq<Cluster>, b: seq<Cluster>)
    requires multiset(a) == multiset(b)
    ensures KeyBag(a) == KeyBag(b)
  {
    if a == [] {
      assert |multiset(b)| == 0;
    } else {
      var n := |a| - 1;
      assert a[n] in multiset(b);
      var k :| 0 <= k < |b| && b[k] == a[n];
      S.WithoutLast(a);
      S.WithoutOne(b, k);
      KeyBagPermutation(a[..n], b[..k] + b[k + 1..]);
      KeyBagSplit(b, k);
    }
  }

  lemma KeyBagSplit(b: seq<Cluster>, k: nat)
    requires k < |b|
    ensures KeyBag(b) == KeyBag(b[..k] + b[k + 1..]) + multiset(KeySeq(b[k].votes))
  {
    assert b == b[..k + 1] + b[k + 1..] && b[..k + 1][..k] == b[..k];
    KeyBagConcat(b[..k + 1], b[k + 1..]);
    KeyBagConcat(b[..k], b[k + 1..]);
  }

  lemma {:induction false} BagHas(cls: seq<Cluster>, cl: Cluster, v: Vote)
    requires cl in cls && v in cl.votes
    ensures v.key in KeyBag(cls)
  {
    var last := cls[|cls| - 1];
    if cl == last {
      var i :| 0 <= i < |cl.votes| && cl.votes[i] == v;
      assert KeySeq(cl.votes)[i] == v.key;
      assert v.key in KeySeq(last.votes);
    } else {
      assert cls == cls[..|cls| - 1] + [last];
      BagHas(cls[..|cls| - 1], cl, v);
    }
  }
}
