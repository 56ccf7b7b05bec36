/** Order-preserving selections, by flag and by mark. A labelling splits a sequence without losing or repeating any. */
module Selection {

  /** The elements whose flag is w, in order. */
  function Chosen<A>(xs: seq<A>, flags: seq<bool>, w: bool): (r: seq<A>)
    requires |flags| == |xs|
    ensures |r| <= |xs|
  {
    if xs == [] then []
    else
      var n := |xs| - 1;
      Chosen(xs[..n], flags[..n], w) + if flags[n] == w then [xs[n]] else []
  }

  /** The position of the j-th raised flag. */
  ghost function Position(flags: seq<bool>, j: nat): (i: nat)
    requires j < |Chosen(flags, flags, true)|
    ensures i < |flags| && flags[i]
  {
    var n := |flags| - 1;
    if j < |Chosen(flags[..n], flags[..n], true)| then Position(flags[..n], j) else n
  }

  /** Selections by the same flags from different sequences stay aligned. */
  lemma {:induction false} ChosenAt<A>(xs: seq<A>, flags: seq<bool>, j: nat)
    requires |flags| == |xs| && j < |Chosen(flags, flags, true)|
    ensures |Chosen(xs, flags, true)| == |Chosen(flags, flags, true)|
    ensures Chosen(xs, flags, true)[j] == xs[Position(flags, j)]
  {
    SameCount(xs, flags, flags, true);
    var n := |flags| - 1;
    SameCount(xs[..n], flags[..n], flags[..n], true);
    if j < |Chosen(flags[..n], flags[..n], true)| { ChosenAt(xs[..n], flags[..n], j); }
  }

  lemma {:induction false} SameCount<A, B>(xs: seq<A>, ys: seq<B>, flags: seq<bool>, w: bool)
    requires |xs| == |ys| == |flags|
    ensures |Chosen(xs, flags, w)| == |Chosen(ys, flags, w)|
  {
    if xs != [] {
      var n := |xs| - 1;
      SameCount(xs[..n], ys[..n], flags[..n], w);
    }
  }

  /** Both sides of a selection together have every element. */
  lemma {:induction false} BothSides<A>(xs: seq<A>, flags: seq<bool>)
    requires |flags| == |xs|
    ensures |Chosen(xs, flags, true)| + |Chosen(xs, flags, false)| == |xs|
  {
    if xs != [] { BothSides(xs[..|xs| - 1], flags[..|xs| - 1]); }
  }

  ghost function Raised(flags: seq<bool>): set<nat> { set i: nat | i < |flags| && flags[i] }

  lemma {:induction false} RaisedCount(flags: seq<bool>)
    ensures |Raised(flags)| == |Chosen(flags, flags, true)|
  {
    if flags == [] {
      assert Raised(flags) == {};
    } else {
      var n := |flags| - 1;
      RaisedCount(flags[..n]);
      assert Raised(flags) == Raised(flags[..n]) + if flags[n] then {n} else {};
    }
  }

  lemma {:induction false} ChosenAll<A>(xs: seq<A>, flags: seq<bool>)
    requires |flags| == |xs| && forall i :: 0 <= i < |flags| ==> flags[i]
    ensures Chosen(xs, flags, true) == xs
  {
    if xs != [] {
      var n := |xs| - 1;
      ChosenAll(xs[..n], flags[..n]);
      assert xs == xs[..n] + [xs[n]];
    }
  }

  /** The elements labelled k, in order. */
  function Labelled<A>(xs: seq<A>, mark: seq<nat>, k: nat): (r: seq<A>)
    requires |mark| == |xs|
  {
    if xs == [] then []
    else
      var n := |xs| - 1;
      if mark[n] == k then Labelled(xs[..n], mark[..n], k) + [xs[n]] else Labelled(xs[..n], mark[..n], k)
  }

  /** Everything with a mark below m. */
  ghost function Gathered<A>(xs: seq<A>, mark: seq<nat>, m: nat): multiset<A>
    requires |mark| == |xs|
  {
    if m == 0 then multiset{} else Gathered(xs, mark, m - 1) + multiset(Labelled(xs, mark, m - 1))
  }

  lemma {:induction false} GatheredStep<A>(xs: seq<A>, mark: seq<nat>, m: nat)
    requires |mark| == |xs| > 0
    ensures var n := |xs| - 1;
            Gathered(xs, mark, m) == Gathered(xs[..n], mark[..n], m) + if mark[n] < m then multiset{xs[n]}
              else multiset{}
  {
    if m > 0 { GatheredStep(xs, mark, m - 1); }
  }

  lemma {:induction false} GatheredNone<A>(m: nat)
    ensures Gathered<A>([], [], m) == multiset{}
  {
    if m > 0 { GatheredNone<A>(m - 1); }
  }

  /** The classes of a labelling make up the sequence. */
  lemma {:induction false} LabelsPartition<A>(xs: seq<A>, mark: seq<nat>, m: nat)
    requires |mark| == |xs| && forall i :: 0 <= i < |mark| ==> mark[i] < m
    ensures Gathered(xs, mark, m) == multiset(xs)
  {
    if xs == [] {
      GatheredNone<A>(m);
    } else {
      var n := |xs| - 1;
      LabelsPartition(xs[..n], mark[..n], m);
      GatheredStep(xs, mark, m);
      assert xs == xs[..n] + [xs[n]];
    }
  }

  lemma {:induction false} LabelledIn<A>(xs: seq<A>, mark: seq<nat>, k: nat)
    requires |mark| == |xs|
    ensures forall x :: x in Labelled(xs, mark, k) ==> x in xs
  {
    if xs != [] { LabelledIn(xs[..|xs| - 1], mark[..|xs| - 1], k); }
  }

  lemma {:induction false} LabelledAll<A>(xs: seq<A>, mark: seq<nat>, k: nat)
    requires |mark| == |xs| && forall i :: 0 <= i < |mark| ==> mark[i] == k
    ensures Labelled(xs, mark, k) == xs
  {
    if xs != [] {
      var n := |xs| - 1;
      LabelledAll(xs[..n], mark[..n], k);
      assert xs == xs[..n] + [xs[n]];
    }
  }

  lemma {:induction false} LabelledSize<A, B>(xs: seq<A>, ys: seq<B>, mark: seq<nat>, k: nat)
    requires |mark| == |xs| == |ys|
    ensures |Labelled(xs, mark, k)| == |Labelled(ys, mark, k)|
  {
    if xs != [] { LabelledSize(xs[..|xs| - 1], ys[..|xs| - 1], mark[..|xs| - 1], k); }
  }

  /** Moves the elements of class m whose flag is down to class m + 1. */
  ghost function Relabel(mark: seq<nat>, m: nat, flags: seq<bool>): (r: seq<nat>)
    requires |flags| == |Labelled(mark, mark, m)|
    ensures |r| == |mark|
  {
    if mark == [] then []
    else
      var n := |mark| - 1;
      if mark[n] == m then
        assert |flags| > 0;
        Relabel(mark[..n], m, flags[..|flags| - 1]) + [if flags[|flags| - 1] then m else m + 1]
      else
        Relabel(mark[..n], m, flags) + [mark[n]]
  }

  /** The raised elements of the last class stay, the others become the new last class; earlier ones are untouched. */
  lemma {:induction false} Relabelled<A>(xs: seq<A>, mark: seq<nat>, m: nat, flags: seq<bool>)
    requires |mark| == |xs| && |flags| == |Labelled(mark, mark, m)| == |Labelled(xs, mark, m)|
    requires forall i :: 0 <= i < |mark| ==> mark[i] <= m
    ensures var l := Relabel(mark, m, flags);
            (forall i :: 0 <= i < |l| ==> l[i] <= m + 1)
            && Labelled(xs, l, m) == Chosen(Labelled(xs, mark, m), flags, true)
            && Labelled(xs, l, m + 1) == Chosen(Labelled(xs, mark, m), flags, false)
  {
    if xs != [] {
      var n := |xs| - 1;
      LabelledSize(xs[..n], mark[..n], mark[..n], m);
      LabelledLast(xs, mark, m);
      LabelledLast(mark, mark, m);
      RelabelLast(mark, m, flags);
      var fl := if mark[n] == m then flags[..|flags| - 1] else flags;
      Relabelled(xs[..n], mark[..n], m, fl);
      var l := Relabel(mark, m, flags);
      LabelledLast(xs, l, m);
      LabelledLast(xs, l, m + 1);
      if mark[n] == m {
        ChosenLast(Labelled(xs, mark, m), flags, true);
        ChosenLast(Labelled(xs, mark, m), flags, false);
      }
      hide Labelled, Relabel, Chosen;
    }
  }

  lemma LabelledLast<A>(xs: seq<A>, mark: seq<nat>, k: nat)
    requires |mark| == |xs| > 0
    ensures var n := |xs| - 1;
            Labelled(xs, mark, k) == Labelled(xs[..n], mark[..n], k) + if mark[n] == k then [xs[n]] else []
  {
  }

  lemma RelabelLast(mark: seq<nat>, m: nat, flags: seq<bool>)
    requires mark != [] && |flags| == |Labelled(mark, mark, m)|
    ensures var n := |mark| - 1;
            var fl := if mark[n] == m then flags[..|flags| - 1] else flags;
            |fl| == |Labelled(mark[..n], mark[..n], m)|
            && Relabel(mark, m, flags)[..n] == Relabel(mark[..n], m, fl)
            && Relabel(mark, m, flags)[n] == if mark[n] != m then mark[n] else if flags[|flags| - 1] then m else m + 1
  {
  }

  lemma ChosenLast<A>(xs: seq<A>, flags: seq<bool>, b: bool)
    requires |flags| == |xs| > 0
    ensures var n := |xs| - 1;
            Chosen(xs, flags, b) == Chosen(xs[..n], flags[..n], b) + if flags[n] == b then [xs[n]] else []
  {
  }

  lemma {:induction false} RelabelKeeps<A>(xs: seq<A>, mark: seq<nat>, m: nat, flags: seq<bool>, k: nat)
    requires |mark| == |xs| && |flags| == |Labelled(mark, mark, m)| && k < m
    ensures Labelled(xs, Relabel(mark, m, flags), k) == Labelled(xs, mark, k)
  {
    if xs != [] {
      var n := |xs| - 1;
      var fl := if mark[n] == m then flags[..|flags| - 1] else flags;
      RelabelKeeps(xs[..n], mark[..n], m, fl, k);
      assert Relabel(mark, m, flags)[..n] == Relabel(mark[..n], m, fl);
    }
  }

  /** The elements of class k and later, in order. */
  ghost function From<A>(xs: seq<A>, mark: seq<nat>, k: nat): seq<A>
    requires |mark| == |xs|
  {
    if xs == [] then []
    else
      var n := |xs| - 1;
      if mark[n] >= k then From(xs[..n], mark[..n], k) + [xs[n]] else From(xs[..n], mark[..n], k)
  }

  lemma {:induction false} FromLast<A>(xs: seq<A>, mark: seq<nat>, m: nat)
    requires |mark| == |xs| && forall i :: 0 <= i < |mark| ==> mark[i] <= m
    ensures From(xs, mark, m) == Labelled(xs, mark, m)
  {
    if xs != [] { FromLast(xs[..|xs| - 1], mark[..|xs| - 1], m); }
  }

  lemma {:induction false} FromAll<A>(xs: seq<A>, mark: seq<nat>, k: nat)
    requires |mark| == |xs| && forall i :: 0 <= i < |mark| ==> mark[i] >= k
    ensures From(xs, mark, k) == xs
  {
    if xs != [] {
      var n := |xs| - 1;
      FromAll(xs[..n], mark[..n], k);
      assert xs == xs[..n] + [xs[n]];
    }
  }

  lemma {:induction false} FromNone<A>(xs: seq<A>, mark: seq<nat>, k: nat)
    requires |mark| == |xs| && forall i :: 0 <= i < |mark| ==> mark[i] < k
    ensures From(xs, mark, k) == []
  {
    if xs != [] { FromNone(xs[..|xs| - 1], mark[..|xs| - 1], k); }
  }

  lemma {:induction false} RelabelKeepsFrom<A>(xs: seq<A>, mark: seq<nat>, m: nat, flags: seq<bool>, k: nat)
    requires |mark| == |xs| && |flags| == |Labelled(mark, mark, m)| && k <= m
    ensures From(xs, Relabel(mark, m, flags), k) == From(xs, mark, k)
  {
    if xs != [] {
      var n := |xs| - 1;
      var fl := if mark[n] == m then flags[..|flags| - 1] else flags;
      RelabelKeepsFrom(xs[..n], mark[..n], m, fl, k);
      assert Relabel(mark, m, flags)[..n] == Relabel(mark[..n], m, fl);
    }
  }

  /** Which of the elements of class k and later are of class k. */
  ghost function Flags(mark: seq<nat>, k: nat): seq<bool> {
    if mark == [] then []
    else
      var n := |mark| - 1;
      if mark[n] >= k then Flags(mark[..n], k) + [mark[n] == k] else Flags(mark[..n], k)
  }

  /** The raised elements of the later classes are those of class k. */
  lemma {:induction false} FlagsChoose<A>(xs: seq<A>, mark: seq<nat>, k: nat)
    requires |mark| == |xs|
    ensures |Flags(mark, k)| == |From(xs, mark, k)|
    ensures Chosen(From(xs, mark, k), Flags(mark, k), true) == Labelled(xs, mark, k)
  {
    if xs != [] {
      var n := |xs| - 1;
      FlagsChoose(xs[..n], mark[..n], k);
      if mark[n] >= k {
        var r, fl := From(xs, mark, k), Flags(mark, k);
        assert r[..|r| - 1] == From(xs[..n], mark[..n], k) && fl[..|fl| - 1] == Flags(mark[..n], k);
      }
    }
  }

  /** Relabelling by flags makes them the flags of the class. */
  lemma {:induction false} RelabelFlags(mark: seq<nat>, m: nat, flags: seq<bool>)
    requires |flags| == |Labelled(mark, mark, m)| && forall i :: 0 <= i < |mark| ==> mark[i] <= m
    ensures Flags(Relabel(mark, m, flags), m) == flags
  {
    if mark != [] {
      var n := |mark| - 1;
      LabelledSize(mark[..n], mark[..n], mark[..n], m);
      RelabelLast(mark, m, flags);
      var fl := if mark[n] == m then flags[..|flags| - 1] else flags;
      RelabelFlags(mark[..n], m, fl);
      hide Labelled, Relabel;
      if mark[n] == m { assert flags == fl + [flags[|flags| - 1]]; }
    }
  }

  lemma {:induction false} RelabelKeepsFlags(mark: seq<nat>, m: nat, flags: seq<bool>, k: nat)
    requires |flags| == |Labelled(mark, mark, m)| && k < m
    ensures Flags(Relabel(mark, m, flags), k) == Flags(mark, k)
  {
    if mark != [] {
      var n := |mark| - 1;
      RelabelLast(mark, m, flags);
      var fl := if mark[n] == m then flags[..|flags| - 1] else flags;
      RelabelKeepsFlags(mark[..n], m, fl, k);
      hide Labelled, Relabel;
    }
  }
}
