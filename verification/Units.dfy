/** One unit's part of a tick: forgetting, counting background votes, and offering votes to association. */
module Units {
  import opened Medians
  import opened Votes

  // ---------------------------------------------------------------------
  // Counting background votes
  // ---------------------------------------------------------------------

  /** The unit's vote history, and how many votes were new. */
  datatype Tally = Tally(seen: map<VoteKey, real>, votes: real, lastCounted: real, formed: nat)

  /** A vote seen for the first time is remembered, and counts if it is well after the last one that counted. */
  function Count(c: VoteRules, t: Tally, v: Vote): Tally {
    if v.key in t.seen then t
    else
      var s := t.(seen := t.seen[v.key := v.t], formed := t.formed + 1);
      if v.t > t.lastCounted + 2.0 * c.unitVoteSec then s.(votes := t.votes + 1.0, lastCounted := v.t) else s
  }

  function CountAll(c: VoteRules, t: Tally, vs: seq<Vote>): Tally {
    if vs == [] then t else Count(c, CountAll(c, t, vs[..|vs| - 1]), vs[|vs| - 1])
  }

  function Keys(vs: seq<Vote>): set<VoteKey> { set v | v in vs :: v.key }

  lemma KeysAppend(vs: seq<Vote>, v: Vote)
    ensures Keys(vs + [v]) == Keys(vs) + {v.key}
  {
    forall k | k in Keys(vs) ensures k in Keys(vs + [v]) {
      var w :| w in vs && w.key == k;
      assert w in vs + [v];
    }
    assert v in vs + [v];
  }

  /** Which votes are remembered, and how many of them are new. */
  ghost predicate Tracked(t: Tally, r: Tally, keys: set<VoteKey>) {
    r.seen.Keys == t.seen.Keys + keys && r.formed == t.formed + |keys - t.seen.Keys|
  }

  /** The count rose by at most one for each new vote, and the last counted time with it. */
  ghost predicate Raised(t: Tally, r: Tally) {
    && t.votes <= r.votes <= t.votes + (r.formed - t.formed) as real
    && (r.votes > t.votes ==> r.lastCounted > t.lastCounted) && r.lastCounted >= t.lastCounted
  }

  lemma OneMore(keys: set<VoteKey>, known: set<VoteKey>, k: VoteKey)
    ensures |(keys + {k}) - known| == |keys - known| + if k in known + keys then 0 else 1
  {
    if k in known + keys {
      assert (keys + {k}) - known == keys - known;
    } else {
      assert (keys + {k}) - known == (keys - known) + {k};
    }
  }

  lemma CountKeys(c: VoteRules, r: Tally, v: Vote)
    ensures Count(c, r, v).seen.Keys == r.seen.Keys + {v.key}
  {
    assert v.key in r.seen <==> v.key in r.seen.Keys;
  }

  lemma CountNumbers(c: VoteRules, r: Tally, v: Vote)
    requires c.unitVoteSec >= 0.0
    ensures var s := Count(c, r, v);
            s.formed == r.formed + (if v.key in r.seen.Keys then 0 else 1)
            && r.votes <= s.votes <= r.votes + (s.formed - r.formed) as real
            && (s.votes > r.votes ==> s.lastCounted > r.lastCounted) && s.lastCounted >= r.lastCounted
  {
  }

  lemma TrackedMore(c: VoteRules, t: Tally, r: Tally, keys: set<VoteKey>, v: Vote)
    requires c.unitVoteSec >= 0.0 && Tracked(t, r, keys)
    ensures Tracked(t, Count(c, r, v), keys + {v.key})
  {
    hide Count;
    CountNumbers(c, r, v);
    CountKeys(c, r, v);
    TrackedSets(t.seen.Keys, keys, r.seen.Keys, Count(c, r, v).seen.Keys, v.key);
  }

  lemma TrackedSets(known: set<VoteKey>, keys: set<VoteKey>, before: set<VoteKey>, after: set<VoteKey>, k: VoteKey)
    requires before == known + keys && after == before + {k}
    ensures after == known + (keys + {k})
    ensures |(keys + {k}) - known| == |keys - known| + if k in before then 0 else 1
  {
    OneMore(keys, known, k);
  }

  lemma RaisedMore(c: VoteRules, t: Tally, r: Tally, v: Vote)
    requires c.unitVoteSec >= 0.0 && Raised(t, r)
    ensures Raised(t, Count(c, r, v))
  {
    CountNumbers(c, r, v);
    hide Count;
  }

  /** Every vote ends up remembered; exactly the unknown ones are new; the count rises by at most one for each. */
  lemma {:induction false} CountFacts(c: VoteRules, t: Tally, vs: seq<Vote>)
    requires c.unitVoteSec >= 0.0
    ensures Tracked(t, CountAll(c, t, vs), Keys(vs)) && Raised(t, CountAll(c, t, vs))
  {
    hide Keys, Tracked, Raised, Count;
    if vs == [] {
      CountedNone(t);
    } else {
      var rest, v := vs[..|vs| - 1], vs[|vs| - 1];
      CountFacts(c, t, rest);
      assert vs == rest + [v];
      KeysAppend(rest, v);
      TrackedMore(c, t, CountAll(c, t, rest), Keys(rest), v);
      RaisedMore(c, t, CountAll(c, t, rest), v);
    }
  }

  lemma CountedNone(t: Tally)
    ensures Tracked(t, t, Keys([])) && Raised(t, t)
  {
    assert Keys([]) == {};
    assert {} - t.seen.Keys == {};
  }

  /** A vote that stays remembered is never counted again. */
  lemma {:induction false} CountOnce(c: VoteRules, t: Tally, vs: seq<Vote>)
    requires Keys(vs) <= t.seen.Keys
    ensures CountAll(c, t, vs) == t
  {
    if vs != [] {
      var rest, v := vs[..|vs| - 1], vs[|vs| - 1];
      assert vs == rest + [v];
      KeysAppend(rest, v);
      CountOnce(c, t, rest);
    }
  }

  // ---------------------------------------------------------------------
  // Offering
  // ---------------------------------------------------------------------

  predicate Offerable(consumed: map<VoteKey, real>, since: real, v: Vote) { v.key !in consumed && v.t >= since }

  /** The votes not yet consumed and still within the association window, in order. */
  function Offered(vs: seq<Vote>, consumed: map<VoteKey, real>, since: real): (r: seq<Vote>) {
    if vs == [] then []
    else
      var v := vs[|vs| - 1];
      if Offerable(consumed, since, v) then Offered(vs[..|vs| - 1], consumed, since) + [v]
      else Offered(vs[..|vs| - 1], consumed, since)
  }

  lemma {:induction false} OfferedWhich(vs: seq<Vote>, consumed: map<VoteKey, real>, since: real)
    ensures forall v :: v in Offered(vs, consumed, since) <==> v in vs && Offerable(consumed, since, v)
  {
    hide Offerable;
    if vs != [] {
      var rest, last := vs[..|vs| - 1], vs[|vs| - 1];
      OfferedWhich(rest, consumed, since);
      assert vs == rest + [last];
    }
  }

  lemma {:induction false} OfferedRise(vs: seq<Vote>, consumed: map<VoteKey, real>, since: real)
    requires KeysRise(vs)
    ensures KeysRise(Offered(vs, consumed, since))
  {
    hide Offerable;
    if vs != [] {
      var rest, v := vs[..|vs| - 1], vs[|vs| - 1];
      OfferedRise(rest, consumed, since);
      OfferedWhich(rest, consumed, since);
      var before := Offered(rest, consumed, since);
      forall i | 0 <= i < |before| ensures before[i].key.second < v.key.second {
        assert before[i] in rest;
        var j :| 0 <= j < |rest| && rest[j] == before[i];
      }
    }
  }

  // ---------------------------------------------------------------------
  // The tick of one unit
  // ---------------------------------------------------------------------

  /** Picks and remembered votes older than this are forgotten. */
  function Horizon(c: VoteRules, now: real): real { now - c.assocWindow - 30.0 }

  function Remembered(seen: map<VoteKey, real>, cut: real): map<VoteKey, real> {
    map k | k in seen && seen[k] >= cut :: seen[k]
  }

  function Credit(u: Unit, dt: real, nElig: nat): real { if dt > 0.0 && nElig > 0 then u.exposure + dt else u.exposure }

  /** What a tick does to a unit: forget, credit exposure, form votes from the maximal runs, count and offer them. */
  ghost predicate Ticked(c: VoteRules, u: Unit, nElig: nat, adet: real, dt: real, now: real,
                         consumed: map<VoteKey, real>, u2: Unit, offered: seq<Vote>, formed: nat,
                         runs: seq<seq<UnitPick>>)
  {
    && GoodPicks(u2.picks)
    && (forall p :: p in u2.picks <==> p in u.picks && p.t >= Horizon(c, now))
    && MaximalRuns(runs, u2.picks, c.unitVoteSec) && NonEmpty(runs)
    && (var all := VotesOf(c, u, runs, nElig, adet);
        && CountAll(c, Tally(Remembered(u.seen, Horizon(c, now)), u.votes, u.lastCounted, 0), all)
           == Tally(u2.seen, u2.votes, u2.lastCounted, formed)
        && offered == Offered(all, consumed, now - c.assocWindow))
    && u2
       == u.(exposure := Credit(u, dt, nElig), picks := u2.picks, seen := u2.seen, votes := u2.votes,
             lastCounted := u2.lastCounted)
  }

  /** The unit's turn, whatever the runs of its picks are. */
  ghost predicate Turned(c: VoteRules, u: Unit, nElig: nat, adet: real, dt: real, now: real,
                         consumed: map<VoteKey, real>, u2: Unit, offered: seq<Vote>, formed: nat)
  {
    exists runs :: Ticked(c, u, nElig, adet, dt, now, consumed, u2, offered, formed, runs)
  }

  /** Counts and offers the votes in one pass. */
  method CountAndOffer(c: VoteRules, t0: Tally, vs: seq<Vote>, consumed: map<VoteKey, real>, since: real)
    returns (t: Tally, offered: seq<Vote>)
    ensures t == CountAll(c, t0, vs) && offered == Offered(vs, consumed, since)
  {
    t, offered := t0, [];
    for i := 0 to |vs|
      invariant t == CountAll(c, t0, vs[..i]) && offered == Offered(vs[..i], consumed, since)
    {
      var v := vs[i];
      assert vs[..i + 1][..i] == vs[..i];
      if v.key !in t.seen {
        var counts := v.t > t.lastCounted + 2.0 * c.unitVoteSec;
        t := t.(seen := t.seen[v.key := v.t], formed := t.formed + 1);
        if counts { t := t.(votes := t.votes + 1.0, lastCounted := v.t); }
      }
      if v.key !in consumed && v.t >= since { offered := offered + [v]; }
    }
    assert vs[..|vs|] == vs;
  }

  lemma {:induction false} SameVotes(c: VoteRules, u: Unit, w: Unit, runs: seq<seq<UnitPick>>, nElig: nat, adet: real)
    requires u.key == w.key && u.lat == w.lat && u.lng == w.lng && NonEmpty(runs)
    ensures VotesOf(c, u, runs, nElig, adet) == VotesOf(c, w, runs, nElig, adet)
  {
    if runs != [] {
      SameVotes(c, u, w, runs[..|runs| - 1], nElig, adet);
      hide Leads, Median, Devs, Quorum, Listening;
    }
  }

  method TickUnit(c: VoteRules, u: Unit, nElig: nat, adet: real, dt: real, now: real, consumed: map<VoteKey, real>)
    returns (u2: Unit, offered: seq<Vote>, formed: nat, ghost runs: seq<seq<UnitPick>>)
    requires GoodPicks(u.picks)
    ensures Ticked(c, u, nElig, adet, dt, now, consumed, u2, offered, formed, runs)
    ensures Turned(c, u, nElig, adet, dt, now, consumed, u2, offered, formed)
  {
    hide GoodPicks, MaximalRuns, NonEmpty, VotesOf, CountAll, Offered;
    u2 := u;
    if dt > 0.0 && nElig > 0 { u2 := u2.(exposure := u2.exposure + dt); }
    var cut := now - c.assocWindow - 30.0;
    var picks := TrimPicks(u2.picks, cut);
    u2 := u2.(picks := picks, seen := map k | k in u2.seen && u2.seen[k] >= cut :: u2.seen[k]);
    GoodInOrder(picks);
    var votes;
    votes, runs := UnitVotes(c, u2, nElig, adet);
    SameVotes(c, u, u2, runs, nElig, adet);
    var t;
    t, offered := CountAndOffer(c, Tally(u2.seen, u2.votes, u2.lastCounted, 0), votes, consumed, now - c.assocWindow);
    u2 := u2.(seen := t.seen, votes := t.votes, lastCounted := t.lastCounted);
    formed := t.formed;
  }

  /** What a tick offers: votes anchored in picks still held, in rising key order, not consumed, not too old. */
  lemma TickedOffers(c: VoteRules, u: Unit, nElig: nat, adet: real, dt: real, now: real, consumed: map<VoteKey, real>,
                     u2: Unit, offered: seq<Vote>, formed: nat, runs: seq<seq<UnitPick>>)
    requires ValidRules(c) && Ticked(c, u, nElig, adet, dt, now, consumed, u2, offered, formed, runs)
    ensures KeysRise(offered)
    ensures forall v :: v in offered ==> Anchored(u2, v.key) && v.key !in consumed && v.t >= now - c.assocWindow
  {
    hide GoodPicks, MaximalRuns, NonEmpty, VotesOf, CountAll, Offered, RunVote, KeysRise, Anchored;
    var all := VotesOf(c, u, runs, nElig, adet);
    SameVotes(c, u, u2, runs, nElig, adet);
    VoteKeysRise(c, u, runs, u2.picks, nElig, adet);
    VotesAnchored(c, u2, runs, nElig, adet);
    OfferedRise(all, consumed, now - c.assocWindow);
    OfferedWhich(all, consumed, now - c.assocWindow);
  }

  lemma TickedHere(c: VoteRules, u: Unit, nElig: nat, adet: real, dt: real, now: real, consumed: map<VoteKey, real>,
                   u2: Unit, offered: seq<Vote>, formed: nat, runs: seq<seq<UnitPick>>)
    requires Ticked(c, u, nElig, adet, dt, now, consumed, u2, offered, formed, runs)
    ensures forall v :: v in offered ==> v.key.unit == u.key && v.lat == u.lat && v.lng == u.lng
  {
    hide GoodPicks, MaximalRuns, NonEmpty, VotesOf, CountAll, Offered;
    VotesHere(c, u, runs, nElig, adet);
    OfferedWhich(VotesOf(c, u, runs, nElig, adet), consumed, now - c.assocWindow);
  }

  /** A unit whose picks are all behind the horizon: nothing is left of them, and nothing is formed. */
  function IdleUnit(c: VoteRules, u: Unit, nElig: nat, dt: real, now: real): Unit {
    u.(exposure := Credit(u, dt, nElig), picks := [], seen := Remembered(u.seen, Horizon(c, now)))
  }

  ghost predicate Quiet(c: VoteRules, u: Unit, now: real) { forall p :: p in u.picks ==> p.t < Horizon(c, now) }

  lemma TickedQuiet(c: VoteRules, u: Unit, nElig: nat, adet: real, dt: real, now: real, consumed: map<VoteKey, real>,
                    u2: Unit, offered: seq<Vote>, formed: nat, runs: seq<seq<UnitPick>>)
    requires Ticked(c, u, nElig, adet, dt, now, consumed, u2, offered, formed, runs) && Quiet(c, u, now)
    ensures u2 == IdleUnit(c, u, nElig, dt, now) && offered == [] && formed == 0
  {
    hide GoodPicks;
    NothingIn(u2.picks);
    NonEmptyConcat(runs);
    assert MaximalRuns(runs, [], c.unitVoteSec);
    hide MaximalRuns, NonEmpty, Concat;
  }

  lemma NothingIn(ps: seq<UnitPick>)
    ensures ps != [] ==> ps[0] in ps
  {
  }

  lemma NonEmptyConcat(runs: seq<seq<UnitPick>>)
    requires NonEmpty(runs)
    ensures runs != [] ==> Concat(runs) != []
  {
    assert runs != [] ==> runs[|runs| - 1] != [];
  }

  // ---------------------------------------------------------------------
  // The end of a pick
  // ---------------------------------------------------------------------

  predicate IsPick(p: UnitPick, dev: Device, seqNo: nat) { p.dev == dev && p.seqNo == seqNo }

  /** What the end of pick (dev, seqNo) does to a list: remove it if it was rejected, else raise its amplitude. */
  ghost predicate Ended(ps: seq<UnitPick>, dev: Device, seqNo: nat, accepted: bool, pga: real, out: seq<UnitPick>,
                        removed: bool)
  {
    if exists i :: 0 <= i < |ps| && IsPick(ps[i], dev, seqNo) then
      exists i :: 0 <= i < |ps| && IsPick(ps[i], dev, seqNo) && removed == !accepted
        && out == if accepted then ps[i := ps[i].(pga := if pga > ps[i].pga then pga else ps[i].pga)]
                  else Without(ps, i)
    else
      out == ps && !removed
  }

  lemma WithoutGood(ps: seq<UnitPick>, i: nat)
    requires GoodPicks(ps) && i < |ps|
    ensures GoodPicks(Without(ps, i))
    ensures forall p :: p in Without(ps, i) ==> p in ps
  {
    var out := Without(ps, i);
    forall k | 0 <= k < |out| ensures out[k] == ps[if k < i then k else k + 1] {}
  }

  lemma AmplifiedGood(ps: seq<UnitPick>, i: nat, pga: real)
    requires GoodPicks(ps) && i < |ps|
    ensures GoodPicks(ps[i := ps[i].(pga := pga)])
  {
  }

  method FinishPick(ps: seq<UnitPick>, dev: Device, seqNo: nat, accepted: bool, pga: real)
    returns (out: seq<UnitPick>, removed: bool)
    requires GoodPicks(ps)
    ensures GoodPicks(out) && Ended(ps, dev, seqNo, accepted, pga, out, removed)
    ensures forall p :: p in out ==> exists q :: q in ps && q.t == p.t
  {
    hide GoodPicks;
    for i := 0 to |ps|
      invariant forall k :: 0 <= k < i ==> !IsPick(ps[k], dev, seqNo)
    {
      if ps[i].dev == dev && ps[i].seqNo == seqNo {
        assert IsPick(ps[i], dev, seqNo);
        if !accepted {
          WithoutGood(ps, i);
          return Without(ps, i), true;
        }
        var p := ps[i];
        if pga > p.pga { p := p.(pga := pga); }
        AmplifiedGood(ps, i, p.pga);
        out := ps[i := p];
        forall q | q in out ensures exists r :: r in ps && r.t == q.t {
          var k :| 0 <= k < |out| && out[k] == q;
          assert ps[k] in ps && ps[k].t == q.t;
        }
        return out, false;
      }
    }
    return ps, false;
  }
}
