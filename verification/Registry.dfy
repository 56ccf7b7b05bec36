/** Stations and units together: membership, and one tick over every unit. */
module Registry {
  import opened Votes
  import opened Units
  import opened Roster
  import A = Association
  import Geo
  import S = Sorting

  /** A device is a member of exactly the unit its station record names, and that unit exists. */
  ghost predicate MembersMatch(stations: map<Device, Station>, units: map<UnitKey, Unit>) {
    && (forall d :: d in stations ==> stations[d].unit in units && d in units[stations[d].unit].members)
    && (forall k, d :: k in units && d in units[k].members ==> d in stations && stations[d].unit == k)
  }

  /** The unit sits at its own key and cell, and its picks are in order, unrepeated and not from the far future. */
  ghost predicate UnitOk(g: Geo.Grid, k: UnitKey, u: Unit, clock: real)
    requires Geo.ValidGrid(g)
  {
    && u.key == k == Geo.Key(u.cell) && Geo.Valid(g, u.cell) && (u.lat, u.lng) == Geo.Center(g, u.cell)
    && GoodPicks(u.picks) && forall p :: p in u.picks ==> p.t <= clock + 5.0
  }

  ghost predicate UnitsOk(g: Geo.Grid, units: map<UnitKey, Unit>, clock: real)
    requires Geo.ValidGrid(g)
  {
    forall k :: k in units ==> UnitOk(g, k, units[k], clock)
  }

  lemma UnitsOkLater(g: Geo.Grid, units: map<UnitKey, Unit>, clock: real, now: real)
    requires Geo.ValidGrid(g) && UnitsOk(g, units, clock) && clock <= now
    ensures UnitsOk(g, units, now)
  {
    hide GoodPicks, Geo.Key, Geo.Valid, Geo.Center;
  }

  /** A unit nobody has been in yet. */
  function FreshUnit(g: Geo.Grid, cell: Geo.Cell): Unit
    requires Geo.ValidGrid(g)
  {
    Unit(Geo.Key(cell), cell, Geo.Center(g, cell).0, Geo.Center(g, cell).1, {}, 0.0, 0.0, 0.0, map[], [])
  }

  /** The units with one for this cell. */
  function WithUnit(g: Geo.Grid, units: map<UnitKey, Unit>, cell: Geo.Cell): (r: map<UnitKey, Unit>)
    requires Geo.ValidGrid(g)
    ensures Geo.Key(cell) in r
  {
    if Geo.Key(cell) in units then units else units[Geo.Key(cell) := FreshUnit(g, cell)]
  }

  lemma WithUnitOk(g: Geo.Grid, stations: map<Device, Station>, units: map<UnitKey, Unit>, cell: Geo.Cell, clock: real)
    requires Geo.ValidGrid(g) && UnitsOk(g, units, clock) && MembersMatch(stations, units) && Geo.Valid(g, cell)
    ensures UnitsOk(g, WithUnit(g, units, cell), clock) && MembersMatch(stations, WithUnit(g, units, cell))
  {
    hide Geo.Key, Geo.Valid, Geo.Center;
  }

  /** Only the members, the picks or the vote count of one unit have changed, and its picks are still in order. */
  lemma UnitChanged(g: Geo.Grid, units: map<UnitKey, Unit>, clock: real, k: UnitKey, u: Unit)
    requires Geo.ValidGrid(g) && UnitsOk(g, units, clock) && k in units
    requires u == units[k].(members := u.members, picks := u.picks, votes := u.votes, exposure := u.exposure)
    requires GoodPicks(u.picks) && forall p :: p in u.picks ==> p.t <= clock + 5.0
    ensures UnitsOk(g, units[k := u], clock)
  {
    hide GoodPicks, Geo.Key, Geo.Valid, Geo.Center;
    assert UnitOk(g, k, units[k], clock);
  }

  // ---------------------------------------------------------------------
  // One tick over all units
  // ---------------------------------------------------------------------

  datatype TickRules = TickRules(votes: VoteRules, timeout: real)

  ghost predicate UnitTicked(c: TickRules, stations: map<Device, Station>, u: Unit, dt: real, now: real,
                             consumed: map<VoteKey, real>, u2: Unit, offered: seq<Vote>, formed: nat)
  {
    var s := SurveyOf(stations, u.members, now, c.timeout);
    Turned(c.votes, u, s.n, s.adet, dt, now, consumed, u2, offered, formed)
  }

  /** Nothing keeps the unit: no members, no picks, no history. */
  predicate Spent(u: Unit) { u.members == {} && u.picks == [] && u.exposure == 0.0 }

  /** No key twice. */
  ghost predicate Once(vs: seq<Vote>) { forall k :: multiset(A.KeySeq(vs))[k] <= 1 }

  /** The units ks have had their turn. */
  ghost predicate TickedTo(c: TickRules, stations: map<Device, Station>, units0: map<UnitKey, Unit>, dt: real,
                           now: real, consumed: map<VoteKey, real>, ks: seq<UnitKey>, after: map<UnitKey, Unit>,
                           offers: map<UnitKey, seq<Vote>>, news: map<UnitKey, nat>)
  {
    && (forall k :: k in after <==> k in ks) && (forall k :: k in offers <==> k in ks)
        && (forall k :: k in news <==> k in ks)
    && (forall k :: k in ks ==> k in units0)
    && (forall k :: k in ks ==> UnitTicked(c, stations, units0[k], dt, now, consumed, after[k], offers[k], news[k]))
  }

  /** The units that remain after the units in `after` have had their turn. */
  ghost predicate Remain(units0: map<UnitKey, Unit>, after: map<UnitKey, Unit>, units: map<UnitKey, Unit>) {
    && (forall k :: k in units <==> k in units0 && (k in after ==> !Spent(after[k])))
    && (forall k :: k in units ==> units[k] == if k in after then after[k] else units0[k])
  }

  /** The votes are exactly what the units offer. */
  ghost predicate Offers(offers: map<UnitKey, seq<Vote>>, votes: seq<Vote>) {
    && (forall v :: v in votes <==> v.key.unit in offers && v in offers[v.key.unit])
    && Once(votes)
  }

  function New(news: map<UnitKey, nat>, k: UnitKey): nat { if k in news then news[k] else 0 }

  /** How many votes the units formed. */
  ghost function Formed(news: map<UnitKey, nat>, ks: seq<UnitKey>): int { S.Sum(ks, k => New(news, k)) }

  /** What one unit offers: votes of this unit, with keys of picks it holds, not consumed and not too old. */
  ghost predicate FairOffer(c: TickRules, k: UnitKey, now: real, consumed: map<VoteKey, real>, offered: seq<Vote>) {
    KeysRise(offered) && forall v :: v in offered ==> Fair(c, k, now, consumed, v)
  }

  ghost predicate Fair(c: TickRules, k: UnitKey, now: real, consumed: map<VoteKey, real>, v: Vote) {
    && v.key.unit == k && v.key !in consumed && v.t >= now - c.votes.assocWindow
    && Horizon(c.votes, now) < v.key.second as real + 1.0 && v.key.second as real <= now + 5.0
  }

  /** A ticked unit is still in order, and its offer is fair. */
  lemma TickedFair(c: TickRules, g: Geo.Grid, stations: map<Device, Station>, k: UnitKey, u: Unit, clock: real,
                   dt: real, now: real, consumed: map<VoteKey, real>, u2: Unit, offered: seq<Vote>, formed: nat)
    requires Votes.ValidRules(c.votes) && Geo.ValidGrid(g) && UnitOk(g, k, u, clock) && clock <= now
    requires UnitTicked(c, stations, u, dt, now, consumed, u2, offered, formed)
    ensures UnitOk(g, k, u2, now) && FairOffer(c, k, now, consumed, offered) && u2.members == u.members
  {
    hide GoodPicks, MaximalRuns, VotesOf, CountAll, Offered, SurveyOf, Geo.Key, Geo.Valid, Geo.Center;
    var s := SurveyOf(stations, u.members, now, c.timeout);
    var runs :| Ticked(c.votes, u, s.n, s.adet, dt, now, consumed, u2, offered, formed, runs);
    TickedOffers(c.votes, u, s.n, s.adet, dt, now, consumed, u2, offered, formed, runs);
    hide KeysRise;
    forall v | v in offered ensures Fair(c, k, now, consumed, v) {
      assert Anchored(u2, v.key);
      var p :| p in u2.picks && p.t.Floor == v.key.second;
    }
  }

  lemma {:induction false} RisingOnce(vs: seq<Vote>)
    requires KeysRise(vs)
    ensures Once(vs)
  {
    if vs != [] {
      var n := |vs| - 1;
      RisingOnce(vs[..n]);
      var ks := A.KeySeq(vs);
      assert ks[..n] == A.KeySeq(vs[..n]) && ks == ks[..n] + [ks[n]];
      assert vs[n].key !in ks[..n];
      assert vs[n].key !in multiset(ks[..n]);
    }
  }

  lemma OnceConcat(a: seq<Vote>, b: seq<Vote>)
    requires Once(a) && Once(b) && forall v, w :: v in a && w in b ==> v.key != w.key
    ensures Once(a + b)
  {
    var ka, kb := A.KeySeq(a), A.KeySeq(b);
    assert A.KeySeq(a + b) == ka + kb;
    forall k | k in multiset(ka) ensures k !in multiset(kb) {
      KeyOwner(a, k);
      KeyOwner(b, k);
    }
  }

  lemma KeyOwner(vs: seq<Vote>, k: VoteKey)
    ensures k in multiset(A.KeySeq(vs)) <==> exists v :: v in vs && v.key == k
  {
    var ks := A.KeySeq(vs);
    if k in multiset(ks) {
      var i :| 0 <= i < |ks| && ks[i] == k;
      assert vs[i] in vs && vs[i].key == k;
    }
    if v :| v in vs && v.key == k {
      var i :| 0 <= i < |vs| && vs[i] == v;
      assert ks[i] == k;
    }
  }

  lemma OfferMore(c: TickRules, now: real, consumed: map<VoteKey, real>, offers: map<UnitKey, seq<Vote>>,
                  votes: seq<Vote>, k: UnitKey, offered: seq<Vote>)
    requires Offers(offers, votes) && k !in offers && FairOffer(c, k, now, consumed, offered)
    ensures Offers(offers[k := offered], votes + offered)
  {
    RisingOnce(offered);
    forall v, w | v in votes && w in offered ensures v.key != w.key { assert Fair(c, k, now, consumed, w); }
    OnceConcat(votes, offered);
    hide Once, KeysRise;
    var more := offers[k := offered];
    forall v ensures v in votes + offered <==> v.key.unit in more && v in more[v.key.unit] {
      if v in offered { assert Fair(c, k, now, consumed, v); }
    }
  }

  lemma FormedMore(news: map<UnitKey, nat>, ks: seq<UnitKey>, k: UnitKey, n: nat)
    requires k !in ks
    ensures Formed(news[k := n], ks + [k]) == Formed(news, ks) + n
  {
    assert (ks + [k])[..|ks|] == ks;
    FormedSame(news, news[k := n], ks);
  }

  lemma {:induction false} FormedSame(a: map<UnitKey, nat>, b: map<UnitKey, nat>, ks: seq<UnitKey>)
    requires forall k :: k in ks ==> New(a, k) == New(b, k)
    ensures Formed(a, ks) == Formed(b, ks)
  {
    if ks != [] {
      assert ks == ks[..|ks| - 1] + [ks[|ks| - 1]];
      FormedSame(a, b, ks[..|ks| - 1]);
    }
  }

  lemma TickedMore(c: TickRules, stations: map<Device, Station>, units0: map<UnitKey, Unit>, dt: real, now: real,
                   consumed: map<VoteKey, real>, ks: seq<UnitKey>, after: map<UnitKey, Unit>,
                   offers: map<UnitKey, seq<Vote>>, news: map<UnitKey, nat>, k: UnitKey, u2: Unit, offered: seq<Vote>,
                   n: nat)
    requires TickedTo(c, stations, units0, dt, now, consumed, ks, after, offers, news) && k !in ks && k in units0
    requires UnitTicked(c, stations, units0[k], dt, now, consumed, u2, offered, n)
    ensures TickedTo(c, stations, units0, dt, now, consumed, ks + [k], after[k := u2], offers[k := offered],
                     news[k := n])
  {
    hide UnitTicked;
  }

  lemma RemainMore(units0: map<UnitKey, Unit>, after: map<UnitKey, Unit>, units: map<UnitKey, Unit>, k: UnitKey,
                   u2: Unit)
    requires Remain(units0, after, units) && k in units0 && k !in after
    ensures Remain(units0, after[k := u2], if Spent(u2) then units - {k} else units[k := u2])
  {
    hide Spent;
  }

  /** What a tick over all units leaves, offers and forms. */
  ghost predicate AllTurned(c: TickRules, stations: map<Device, Station>, units0: map<UnitKey, Unit>, dt: real,
                            now: real, consumed: map<VoteKey, real>, units: map<UnitKey, Unit>, votes: seq<Vote>,
                            formed: nat)
  {
    exists ks, after, offers, news ::
      Lists(ks, units0.Keys) && TickedTo(c, stations, units0, dt, now, consumed, ks, after, offers, news)
      && Remain(units0, after, units) && Offers(offers, votes) && formed == Formed(news, ks)
  }

  /** Everything a tick does to the units, and the votes they offer. */
  method TickUnits(c: TickRules, g: Geo.Grid, stations: map<Device, Station>, units0: map<UnitKey, Unit>,
                   ghost clock: real, dt: real, now: real, consumed: map<VoteKey, real>)
    returns (units: map<UnitKey, Unit>, votes: seq<Vote>, formed: nat, ghost ks: seq<UnitKey>,
             ghost after: map<UnitKey, Unit>, ghost offers: map<UnitKey, seq<Vote>>, ghost news: map<UnitKey, nat>)
    requires Votes.ValidRules(c.votes) && Geo.ValidGrid(g) && UnitsOk(g, units0, clock) && clock <= now
    ensures Lists(ks, units0.Keys) && TickedTo(c, stations, units0, dt, now, consumed, ks, after, offers, news)
    ensures Remain(units0, after, units) && Offers(offers, votes) && formed == Formed(news, ks)
    ensures AllTurned(c, stations, units0, dt, now, consumed, units, votes, formed)
  {
    hide UnitTicked, Turned, UnitOk, Ticked, SurveyOf, TickedTo, Remain, Offers, Formed, Horizon, Spent, FairOffer;
    units, votes, formed, after, offers, news := units0, [], 0, map[], map[], map[];
    var keys := Enumerate(units0.Keys);
    NoneTicked(c, stations, units0, dt, now, consumed);
    assert keys[..0] == [];
    for i := 0 to |keys|
      invariant TickedTo(c, stations, units0, dt, now, consumed, keys[..i], after, offers, news)
      invariant Remain(units0, after, units) && Offers(offers, votes) && formed == Formed(news, keys[..i])
      invariant forall k :: k in units0 && k !in keys[..i] ==>
                  k in units && units[k] == units0[k] && k !in after && k !in offers
    {
      var k := keys[i];
      assert k in keys && k !in keys[..i];
      assert keys[..i + 1] == keys[..i] + [k];
      var u := units[k];
      assert UnitOk(g, k, u, clock);
      var s := Survey(stations, u.members, now, c.timeout);
      UnitPicksGood(g, k, u, clock);
      var u2, offered, n, runs := TickUnit(c.votes, u, s.n, s.adet, dt, now, consumed);
      TickWitness(c, stations, u, dt, now, consumed, u2, offered, n, runs);
      TickedFair(c, g, stations, k, u, clock, dt, now, consumed, u2, offered, n);
      TickedMore(c, stations, units0, dt, now, consumed, keys[..i], after, offers, news, k, u2, offered, n);
      RemainMore(units0, after, units, k, u2);
      OfferMore(c, now, consumed, offers, votes, k, offered);
      FormedMore(news, keys[..i], k, n);
      votes, formed := votes + offered, formed + n;
      after, offers, news := after[k := u2], offers[k := offered], news[k := n];
      units := if Spent(u2) then units - {k} else units[k := u2];
    }
    assert keys[..|keys|] == keys;
    ks := keys;
  }

  lemma NoneTicked(c: TickRules, stations: map<Device, Station>, units0: map<UnitKey, Unit>, dt: real, now: real,
                   consumed: map<VoteKey, real>)
    ensures TickedTo(c, stations, units0, dt, now, consumed, [], map[], map[], map[])
    ensures Remain(units0, map[], units0) && Offers(map[], []) && Formed(map[], []) == 0
  {
  }

  lemma UnitPicksGood(g: Geo.Grid, k: UnitKey, u: Unit, clock: real)
    requires Geo.ValidGrid(g) && UnitOk(g, k, u, clock)
    ensures GoodPicks(u.picks)
  {
  }

  lemma TickWitness(c: TickRules, stations: map<Device, Station>, u: Unit, dt: real, now: real,
                    consumed: map<VoteKey, real>, u2: Unit, offered: seq<Vote>, n: nat, runs: seq<seq<UnitPick>>)
    requires var s := SurveyOf(stations, u.members, now, c.timeout);
             Ticked(c.votes, u, s.n, s.adet, dt, now, consumed, u2, offered, n, runs)
    ensures UnitTicked(c, stations, u, dt, now, consumed, u2, offered, n)
  {
    hide Ticked, SurveyOf;
  }

  /** Every unit kept its members and is in order, and every offer is fair. */
  ghost predicate AllFair(c: TickRules, g: Geo.Grid, units0: map<UnitKey, Unit>, now: real,
                          consumed: map<VoteKey, real>, after: map<UnitKey, Unit>, offers: map<UnitKey, seq<Vote>>)
    requires Geo.ValidGrid(g)
  {
    && after.Keys == offers.Keys == units0.Keys
    && forall k :: k in units0 ==>
         UnitOk(g, k, after[k], now) && FairOffer(c, k, now, consumed, offers[k])
           && after[k].members == units0[k].members
  }

  lemma TickAllFair(c: TickRules, g: Geo.Grid, stations: map<Device, Station>, units0: map<UnitKey, Unit>, clock: real,
                    dt: real, now: real, consumed: map<VoteKey, real>, ks: seq<UnitKey>, after: map<UnitKey, Unit>,
                    offers: map<UnitKey, seq<Vote>>, news: map<UnitKey, nat>)
    requires Votes.ValidRules(c.votes) && Geo.ValidGrid(g) && UnitsOk(g, units0, clock) && clock <= now
    requires Lists(ks, units0.Keys) && TickedTo(c, stations, units0, dt, now, consumed, ks, after, offers, news)
    ensures AllFair(c, g, units0, now, consumed, after, offers)
  {
    hide UnitTicked, UnitOk, FairOffer;
    forall k | k in units0
      ensures UnitOk(g, k, after[k], now) && FairOffer(c, k, now, consumed, offers[k])
              && after[k].members == units0[k].members
    {
      assert k in ks;
      TickedFair(c, g, stations, k, units0[k], clock, dt, now, consumed, after[k], offers[k], news[k]);
    }
    forall k ensures k in after.Keys <==> k in units0.Keys {}
    forall k ensures k in offers.Keys <==> k in units0.Keys {}
  }

  lemma RemainMatch(c: TickRules, g: Geo.Grid, stations: map<Device, Station>, units0: map<UnitKey, Unit>, now: real,
                    consumed: map<VoteKey, real>, after: map<UnitKey, Unit>, offers: map<UnitKey, seq<Vote>>,
                    units: map<UnitKey, Unit>)
    requires Geo.ValidGrid(g) && AllFair(c, g, units0, now, consumed, after, offers) && Remain(units0, after, units)
    requires MembersMatch(stations, units0)
    ensures UnitsOk(g, units, now) && MembersMatch(stations, units)
  {
    hide UnitOk, FairOffer;
    forall d | d in stations ensures stations[d].unit in units && d in units[stations[d].unit].members {
      assert d in after[stations[d].unit].members;
    }
  }

  lemma OffersFair(c: TickRules, g: Geo.Grid, units0: map<UnitKey, Unit>, now: real, consumed: map<VoteKey, real>,
                   after: map<UnitKey, Unit>, offers: map<UnitKey, seq<Vote>>, votes: seq<Vote>)
    requires Geo.ValidGrid(g) && AllFair(c, g, units0, now, consumed, after, offers) && Offers(offers, votes)
    ensures forall v :: v in votes ==> Fair(c, v.key.unit, now, consumed, v)
  {
    hide UnitOk, Fair, Once, KeysRise;
    forall v | v in votes ensures Fair(c, v.key.unit, now, consumed, v) {
      assert v.key.unit in units0;
      assert FairOffer(c, v.key.unit, now, consumed, offers[v.key.unit]);
    }
  }

  /** Where a unit with this key stands. */
  ghost function PlaceOf(g: Geo.Grid): UnitKey -> (real, real) {
    k => if Geo.ValidGrid(g) then Geo.Center(g, Geo.CellFromKey(k)) else (0.0, 0.0)
  }

  lemma TickedPlaced(c: TickRules, g: Geo.Grid, stations: map<Device, Station>, k: UnitKey, u: Unit, clock: real,
                     dt: real, now: real, consumed: map<VoteKey, real>, u2: Unit, offered: seq<Vote>, formed: nat)
    requires Geo.ValidGrid(g) && UnitOk(g, k, u, clock)
    requires UnitTicked(c, stations, u, dt, now, consumed, u2, offered, formed)
    ensures A.Placed(PlaceOf(g), offered)
  {
    hide GoodPicks, Ticked, SurveyOf, Geo.Key, Geo.Valid, Geo.Center, Geo.CellFromKey, Geo.ValidGrid;
    var s := SurveyOf(stations, u.members, now, c.timeout);
    var runs :| Ticked(c.votes, u, s.n, s.adet, dt, now, consumed, u2, offered, formed, runs);
    TickedHere(c.votes, u, s.n, s.adet, dt, now, consumed, u2, offered, formed, runs);
    Geo.KeyRoundTrip(u.cell, k);
  }

  /** Every vote a tick offers stands where its unit does. */
  lemma OffersPlaced(c: TickRules, g: Geo.Grid, stations: map<Device, Station>, units0: map<UnitKey, Unit>, clock: real,
                     dt: real, now: real, consumed: map<VoteKey, real>, ks: seq<UnitKey>, after: map<UnitKey, Unit>,
                     offers: map<UnitKey, seq<Vote>>, news: map<UnitKey, nat>, votes: seq<Vote>)
    requires Geo.ValidGrid(g) && UnitsOk(g, units0, clock) && Offers(offers, votes)
    requires TickedTo(c, stations, units0, dt, now, consumed, ks, after, offers, news)
    ensures A.Placed(PlaceOf(g), votes)
  {
    hide UnitTicked, UnitOk, Once, PlaceOf, Geo.ValidGrid;
    forall v | v in votes ensures (v.lat, v.lng) == PlaceOf(g)(v.key.unit) {
      var k := v.key.unit;
      TickedPlaced(c, g, stations, k, units0[k], clock, dt, now, consumed, after[k], offers[k], news[k]);
    }
  }

  /** The registry after a tick is in order, and every offered vote is fair. */
  lemma TickKeeps(c: TickRules, g: Geo.Grid, stations: map<Device, Station>, units0: map<UnitKey, Unit>, clock: real,
                  dt: real, now: real, consumed: map<VoteKey, real>, ks: seq<UnitKey>, after: map<UnitKey, Unit>,
                  offers: map<UnitKey, seq<Vote>>, news: map<UnitKey, nat>, units: map<UnitKey, Unit>, votes: seq<Vote>)
    requires Votes.ValidRules(c.votes) && Geo.ValidGrid(g) && UnitsOk(g, units0, clock) && clock <= now
    requires MembersMatch(stations, units0) && Lists(ks, units0.Keys)
    requires TickedTo(c, stations, units0, dt, now, consumed, ks, after, offers, news)
    requires Remain(units0, after, units) && Offers(offers, votes)
    ensures UnitsOk(g, units, now) && MembersMatch(stations, units)
    ensures forall v :: v in votes ==> Fair(c, v.key.unit, now, consumed, v)
  {
    hide *;
    TickAllFair(c, g, stations, units0, clock, dt, now, consumed, ks, after, offers, news);
    RemainMatch(c, g, stations, units0, now, consumed, after, offers, units);
    OffersFair(c, g, units0, now, consumed, after, offers, votes);
  }

  // ---------------------------------------------------------------------
  // Quiet ticks
  // ---------------------------------------------------------------------

  /** A tick over units whose picks are all behind the horizon. */
  ghost function IdleUnits(c: TickRules, stations: map<Device, Station>, units: map<UnitKey, Unit>, dt: real,
                           now: real): map<UnitKey, Unit>
  {
    map k | k in units && !Spent(IdleOne(c, stations, units[k], dt, now)) :: IdleOne(c, stations, units[k], dt, now)
  }

  ghost function IdleOne(c: TickRules, stations: map<Device, Station>, u: Unit, dt: real, now: real): Unit {
    IdleUnit(c.votes, u, |Listeners(stations, u.members, now, c.timeout)|, dt, now)
  }

  lemma QuietUnit(c: TickRules, stations: map<Device, Station>, u: Unit, dt: real, now: real,
                  consumed: map<VoteKey, real>, u2: Unit, offered: seq<Vote>, n: nat)
    requires UnitTicked(c, stations, u, dt, now, consumed, u2, offered, n) && Quiet(c.votes, u, now)
    ensures u2 == IdleOne(c, stations, u, dt, now) && offered == [] && n == 0
  {
    hide Ticked, SurveyOf, IdleUnit;
    SurveyCount(stations, u.members, now, c.timeout);
    var s := SurveyOf(stations, u.members, now, c.timeout);
    var runs :| Ticked(c.votes, u, s.n, s.adet, dt, now, consumed, u2, offered, n, runs);
    TickedQuiet(c.votes, u, s.n, s.adet, dt, now, consumed, u2, offered, n, runs);
  }

  /** The turn of every unit was a quiet one. */
  ghost predicate AllQuiet(c: TickRules, stations: map<Device, Station>, units0: map<UnitKey, Unit>, dt: real,
                           now: real, after: map<UnitKey, Unit>, offers: map<UnitKey, seq<Vote>>,
                           news: map<UnitKey, nat>)
  {
    && after.Keys == offers.Keys == news.Keys == units0.Keys
    && forall k :: k in units0 ==>
         after[k] == IdleOne(c, stations, units0[k], dt, now) && offers[k] == [] && news[k] == 0
  }

  lemma TickAllQuiet(c: TickRules, stations: map<Device, Station>, units0: map<UnitKey, Unit>, dt: real, now: real,
                     consumed: map<VoteKey, real>, ks: seq<UnitKey>, after: map<UnitKey, Unit>,
                     offers: map<UnitKey, seq<Vote>>, news: map<UnitKey, nat>)
    requires Lists(ks, units0.Keys) && TickedTo(c, stations, units0, dt, now, consumed, ks, after, offers, news)
    requires forall k :: k in units0 ==> Quiet(c.votes, units0[k], now)
    ensures AllQuiet(c, stations, units0, dt, now, after, offers, news)
  {
    hide UnitTicked, IdleOne, Quiet;
    forall k | k in units0
      ensures after[k] == IdleOne(c, stations, units0[k], dt, now) && offers[k] == [] && news[k] == 0
    {
      assert k in ks;
      QuietUnit(c, stations, units0[k], dt, now, consumed, after[k], offers[k], news[k]);
    }
    forall k ensures k in after.Keys <==> k in units0.Keys {}
    forall k ensures k in offers.Keys <==> k in units0.Keys {}
    forall k ensures k in news.Keys <==> k in units0.Keys {}
  }

  lemma RemainIdle(c: TickRules, stations: map<Device, Station>, units0: map<UnitKey, Unit>, dt: real, now: real,
                   after: map<UnitKey, Unit>, offers: map<UnitKey, seq<Vote>>, news: map<UnitKey, nat>,
                   units: map<UnitKey, Unit>)
    requires AllQuiet(c, stations, units0, dt, now, after, offers, news) && Remain(units0, after, units)
    ensures units == IdleUnits(c, stations, units0, dt, now)
  {
    hide IdleOne, Spent;
  }

  /** When every unit is quiet, a tick forms and offers nothing, and the units only age. */
  lemma QuietTick(c: TickRules, stations: map<Device, Station>, units0: map<UnitKey, Unit>, dt: real, now: real,
                  consumed: map<VoteKey, real>, ks: seq<UnitKey>, after: map<UnitKey, Unit>,
                  offers: map<UnitKey, seq<Vote>>, news: map<UnitKey, nat>, units: map<UnitKey, Unit>, votes: seq<Vote>)
    requires Lists(ks, units0.Keys) && TickedTo(c, stations, units0, dt, now, consumed, ks, after, offers, news)
    requires Remain(units0, after, units) && Offers(offers, votes)
    requires forall k :: k in units0 ==> Quiet(c.votes, units0[k], now)
    ensures units == IdleUnits(c, stations, units0, dt, now) && votes == [] && Formed(news, ks) == 0
  {
    hide TickedTo, Remain, Once, IdleUnits, IdleOne, Quiet, Formed;
    TickAllQuiet(c, stations, units0, dt, now, consumed, ks, after, offers, news);
    RemainIdle(c, stations, units0, dt, now, after, offers, news, units);
    NoVotes(votes);
    AllZero(news, ks);
  }

  lemma NoVotes(votes: seq<Vote>)
    ensures votes != [] ==> votes[0] in votes
  {
  }

  lemma {:induction false} AllZero(news: map<UnitKey, nat>, ks: seq<UnitKey>)
    requires forall k :: k in ks ==> New(news, k) == 0
    ensures Formed(news, ks) == 0
  {
    if ks != [] {
      assert ks == ks[..|ks| - 1] + [ks[|ks| - 1]];
      AllZero(news, ks[..|ks| - 1]);
    }
  }

  // ---------------------------------------------------------------------
  // Explained votes
  // ---------------------------------------------------------------------

  /** Takes one vote off its unit's background count, never below zero. */
  function ExplainOne(units: map<UnitKey, Unit>, v: Vote): map<UnitKey, Unit> {
    var k := v.key.unit;
    if k in units && units[k].votes > 0.0 then units[k := units[k].(votes := units[k].votes - 1.0)] else units
  }

  function Explain(units: map<UnitKey, Unit>, vs: seq<Vote>): map<UnitKey, Unit> {
    if vs == [] then units else ExplainOne(Explain(units, vs[..|vs| - 1]), vs[|vs| - 1])
  }

  ghost predicate SameButVotes(a: map<UnitKey, Unit>, b: map<UnitKey, Unit>) {
    (forall k :: k in a <==> k in b) && forall k :: k in a ==> b[k] == a[k].(votes := b[k].votes)
  }

  lemma {:induction false} ExplainKeeps(units: map<UnitKey, Unit>, vs: seq<Vote>)
    ensures SameButVotes(units, Explain(units, vs))
  {
    if vs != [] { ExplainKeeps(units, vs[..|vs| - 1]); }
  }

  method ExplainVotes(units0: map<UnitKey, Unit>, vs: seq<Vote>) returns (units: map<UnitKey, Unit>)
    ensures units == Explain(units0, vs) && SameButVotes(units0, units)
  {
    units := units0;
    for i := 0 to |vs|
      invariant units == Explain(units0, vs[..i])
    {
      assert vs[..i + 1][..i] == vs[..i];
      var k := vs[i].key.unit;
      if k in units && units[k].votes > 0.0 {
        units := units[k := units[k].(votes := units[k].votes - 1.0)];
      }
    }
    assert vs[..|vs|] == vs;
    ExplainKeeps(units0, vs);
  }

  lemma SameButVotesOk(g: Geo.Grid, stations: map<Device, Station>, a: map<UnitKey, Unit>, b: map<UnitKey, Unit>,
                       clock: real)
    requires Geo.ValidGrid(g) && SameButVotes(a, b) && UnitsOk(g, a, clock) && MembersMatch(stations, a)
    ensures UnitsOk(g, b, clock) && MembersMatch(stations, b)
  {
    hide GoodPicks, Geo.Key, Geo.Valid, Geo.Center;
    forall k | k in b ensures UnitOk(g, k, b[k], clock) { assert UnitOk(g, k, a[k], clock); }
  }
}
