/**
 The network engine: stations, units and their picks, votes, clusters and events. Every method is told the time,
 which is positive and never goes back.
 */
module Network {
  import opened Votes
  import opened Units
  import opened Roster
  import opened Registry
  import opened Levels
  import opened Events
  import opened Book
  import opened NetworkRules
  import opened Arrivals
  import opened Scenes
  import F = FastForward
  import H = History
  import A = Association
  import E = Evidence
  import J = Judging
  import Geo
  import S = Sorting

  class Engine {
    const c: Config
    var stations: map<Device, Station>
    var units: map<UnitKey, Unit>
    var active: seq<Event>
    var recent: seq<Event>
    var consumed: map<VoteKey, real>
    var lastTick: real
    var seqNo: nat
    var cache: map<seq<A.Mark>, seq<A.Cluster>>
    var counters: Counters

    /** The latest time any method was told. */
    ghost var clock: real
    /** Every key that was ever consumed. */
    ghost var ever: set<VoteKey>
    /** Every event that was ever closed. */
    ghost var past: seq<Event>
    /** Every evaluation of every event. */
    ghost var log: map<nat, seq<Eval>>
    /** Every reading of a vote that was ever offered. */
    ghost var seen: set<A.Reading>

    ghost predicate RegistryOk()
      requires ValidConfig(c)
      reads `stations, `units, `clock
    {
      MembersMatch(stations, units) && UnitsOk(c.grid, units, clock)
    }

    ghost predicate EventsOk()
      reads `active, `recent, `past, `log, `seqNo, `counters, `clock
    {
      BookOk(c.judge.levels, active, past, log, seqNo, counters) && KeysPast(active, clock) && AllIn(recent, past)
    }

    ghost predicate ConsumptionOk()
      reads `consumed, `ever, `clock
    {
      ConsumedOk(consumed) && EverOk(c.votes, ever, consumed, clock)
    }

    /** Every remembered solution was extracted from a group that printed alike, of votes placed by the grid. */
    ghost predicate CacheSound()
      requires ValidConfig(c)
      reads `cache, `seen
    {
      A.CacheOk(c.evidence.assoc, PlaceOf(c.grid), seen, cache)
    }

    ghost predicate Valid()
      reads this
    {
      && ValidConfig(c) && RegistryOk() && EventsOk() && ConsumptionOk() && CacheSound()
      && 0.0 <= clock && lastTick <= clock
    }

    /** The invariant taken apart. */
    lemma Parts()
      requires Valid()
      ensures ValidConfig(c) && Geo.ValidGrid(c.grid) && Votes.ValidRules(c.votes) && E.ValidTuning(c.evidence)
              && A.ValidTuning(c.evidence.assoc)
      ensures MembersMatch(stations, units) && UnitsOk(c.grid, units, clock)
      ensures EventsOk() && ConsumptionOk() && CacheSound() && 0.0 <= clock && lastTick <= clock
    {
    }

    /** The invariant put together. */
    lemma Whole()
      requires ValidConfig(c) && Geo.ValidGrid(c.grid) && Votes.ValidRules(c.votes) && E.ValidTuning(c.evidence)
               && A.ValidTuning(c.evidence.assoc)
      requires MembersMatch(stations, units) && UnitsOk(c.grid, units, clock)
      requires EventsOk() && ConsumptionOk() && CacheSound() && 0.0 <= clock && lastTick <= clock
      ensures Valid()
    {
    }

    lemma EventParts()
      requires EventsOk()
      ensures BookOk(c.judge.levels, active, past, log, seqNo, counters) && KeysPast(active, clock)
              && AllIn(recent, past)
    {
    }

    lemma EventWhole()
      requires BookOk(c.judge.levels, active, past, log, seqNo, counters) && KeysPast(active, clock)
               && AllIn(recent, past)
      ensures EventsOk()
    {
    }

    lemma CacheParts()
      requires ValidConfig(c) && CacheSound()
      ensures A.ValidTuning(c.evidence.assoc) && A.CacheOk(c.evidence.assoc, PlaceOf(c.grid), seen, cache)
    {
    }

    lemma CacheWhole()
      requires ValidConfig(c) && A.ValidTuning(c.evidence.assoc)
      requires A.CacheOk(c.evidence.assoc, PlaceOf(c.grid), seen, cache)
      ensures CacheSound()
    {
    }

    lemma ConsumptionParts()
      requires ConsumptionOk()
      ensures ConsumedOk(consumed) && EverOk(c.votes, ever, consumed, clock)
    {
    }

    lemma ConsumptionWhole()
      requires ConsumedOk(consumed) && EverOk(c.votes, ever, consumed, clock)
      ensures ConsumptionOk()
    {
    }

    /**
     What holds between any two calls: a device is a member of exactly its station's unit, pick lists are in order and
     unrepeated, the counters are the true counts, every event's record follows from its evaluations, and a key that
     was ever consumed is marked or out of reach.
     */
    lemma WhatIsKept()
      requires Valid()
      ensures forall k, d :: k in units ==> (d in units[k].members <==> d in stations && stations[d].unit == k)
      ensures forall d :: d in stations ==> stations[d].unit in units
      ensures forall k :: k in units ==> GoodPicks(units[k].picks)
      ensures counters.created == |active| + |past| && counters.dismissed == DismissedCount(past)
      ensures counters.corroborated == Reached(active + past, 2) && counters.confirmed == Reached(active + past, 3)
      ensures forall i :: 0 <= i < |active + past| ==>
                var ev := (active + past)[i]; ev.id in log && Justified(c.judge.levels, ev, log[ev.id])
      ensures forall k :: k in ever ==> k in consumed || k.second as real + 1.0 <= Horizon(c.votes, clock)
    {
      hide Justified, Reached, DismissedCount, GoodPicks, CacheSound, E.ValidTuning, Geo.ValidGrid, Geo.Key, Geo.Valid,
           Geo.Center;
      forall k | k in units ensures GoodPicks(units[k].picks) { assert UnitOk(c.grid, k, units[k], clock); }
      forall i | 0 <= i < |active + past|
        ensures (active + past)[i].id in log
                && Justified(c.judge.levels, (active + past)[i], log[(active + past)[i].id])
      {
        assert OnRecord(c.judge.levels, log, (active + past)[i]);
      }
    }

    lemma NothingYet()
      requires ValidConfig(c) && stations == map[] && units == map[] && active == [] && recent == []
               && consumed == map[]
      requires counters == ZERO && seqNo == 0 && cache == map[] && past == [] && ever == {} && log == map[]
      requires clock == 0.0 && lastTick == 0.0 && seen == {}
      ensures Valid()
    {
      NothingOk(c);
      hide MembersMatch, UnitsOk, BookOk, KeysPast, AllIn, ConsumedOk, EverOk, CacheSound;
    }

    constructor (config: Config)
      requires ValidConfig(config)
      ensures Valid() && c == config && clock == 0.0 && lastTick == 0.0
      ensures stations == map[] && units == map[] && active == [] && recent == [] && consumed == map[]
              && counters == ZERO
      ensures past == [] && ever == {} && seen == {}
    {
      hide *;
      c := config;
      stations, units, active, recent, consumed, lastTick, seqNo := map[], map[], [], [], map[], 0.0, 0;
      cache, counters := map[], ZERO;
      clock, ever, past, log, seen := 0.0, {}, [], map[], {};
      new;
      NothingYet();
    }

    /** Told the time again. */
    ghost method Hear(now: real)
      requires Valid() && now >= clock
      modifies `clock
      ensures Valid() && clock == now
    {
      hide UnitsOk, MembersMatch, BookOk, AllIn, ConsumedOk, EverOk, CacheSound;
      UnitsOkLater(c.grid, units, clock, now);
      EverLater(c.votes, ever, consumed, clock, now);
      clock := now;
    }

    // -------------------------------------------------------------------
    // Stations
    // -------------------------------------------------------------------

    /** Records a device's status and place, moving it between units if it has moved. */
    method UpdateStation(dev: Device, lat: real, lng: real, info: Station, now: real)
      requires Valid() && now >= clock
      modifies `stations, `units, `clock
      ensures Valid() && clock == now
      ensures var cell := Geo.CellOf(c.grid, lat, lng);
              stations == old(stations)[dev := info.(lastSeen := now, unit := Geo.Key(cell))]
              && Moved(WithUnit(c.grid, old(units), cell), units, Geo.Key(cell), dev)
    {
      hide *;
      Hear(now);
      Parts();
      var cell := Geo.CellOf(c.grid, lat, lng);
      var key := Geo.Key(cell);
      WithUnitOk(c.grid, stations, units, cell, clock);
      ghost var withUnit := WithUnit(c.grid, units, cell);
      MoveTo(dev, cell);
      var r := info.(lastSeen := now, unit := key);
      MoveKeeps(c.grid, stations, withUnit, clock, key, dev, units, r);
      stations := stations[dev := r];
      Whole();
    }

    /** Makes the device a member of the cell's unit, creating it if need be, and of no other. */
    method MoveTo(dev: Device, cell: Geo.Cell)
      requires Geo.ValidGrid(c.grid) && MembersMatch(stations, WithUnit(c.grid, units, cell))
      modifies `units
      ensures Moved(WithUnit(c.grid, old(units), cell), units, Geo.Key(cell), dev)
    {
      hide *;
      WithUnitIs(c.grid, units, cell);
      var key := Geo.Key(cell);
      if key !in units {
        units := units[key := FreshUnit(c.grid, cell)];
      }
      ghost var withUnit := units;
      if dev in stations && stations[dev].unit != key {
        var was := stations[dev].unit;
        if was in units {
          units := units[was := units[was].(members := units[was].members - {dev})];
        }
      }
      units := units[key := units[key].(members := units[key].members + {dev})];
      MovesOnly(stations, withUnit, dev, key, units);
    }

    /** Marks a device as alive. */
    method Touch(dev: Device, now: real)
      requires Valid() && now >= clock
      modifies `stations, `clock
      ensures Valid() && clock == now
      ensures stations == if dev in old(stations) then old(stations)[dev := old(stations)[dev].(lastSeen := now)]
              else old(stations)
    {
      hide *;
      Hear(now);
      Parts();
      if dev in stations {
        TouchKeeps(stations, units, dev, now);
        stations := stations[dev := stations[dev].(lastSeen := now)];
      }
      Whole();
    }

    /** Forgets a device and the picks of it that its unit holds: all, unless it has left some in another unit. */
    method RemoveStation(dev: Device)
      requires Valid()
      modifies `stations, `units
      ensures Valid() && stations == old(stations) - {dev}
      ensures dev !in old(stations) ==> units == old(units)
      ensures dev in old(stations) ==>
                var k := old(stations)[dev].unit;
                k in old(units) && units == RemovedFrom(old(units), k, dev)
                && (NoneOf(units, dev) <==> OnlyAt(old(units), dev, k))
    {
      hide *;
      Parts();
      if dev !in stations { return; }
      var k := stations[dev].unit;
      StationHasUnit(stations, units, dev);
      if k in units {
        PicksOf(c.grid, units, clock, k);
        RemoveKeeps(c.grid, stations, units, clock, dev);
        RemovedExactly(units, k, dev);
        var kept := DropDevice(units[k].picks, dev);
        RemovedIs(units, k, dev);
        units := units[k := units[k].(members := units[k].members - {dev}, picks := kept)];
      }
      stations := stations - {dev};
      Whole();
    }

    /** A station's pick: refused, or filed among its unit's picks in time order. The unit always exists. */
    method AddPick(dev: Device, p: StationPick, now: real)
      requires Valid() && now >= clock
      modifies `units, `counters, `clock
      ensures Valid() && clock == now
      ensures var v := VerdictOf(c, stations, old(units), dev, p, now);
              counters == Bump(old(counters), v) && Filed(c, stations, old(units), dev, p, now, v, units)
    {
      hide *;
      Hear(now);
      Parts();
      Verdicts(c, stations, units, dev, p, now);
      if !p.accepted {
        Bumped(Rejected);
        return;
      }
      if dev !in stations {
        Bumped(Unknown);
        return;
      }
      if p.onsetT < now - c.votes.assocWindow || p.onsetT > now + 5.0 {
        Bumped(Stale);
        return;
      }
      var r := stations[dev];
      StationHasUnit(stations, units, dev);
      var u := units[r.unit];
      PicksOf(c.grid, units, clock, r.unit);
      var up := PickOf(c, r, dev, p, now);
      OnsetKept(c, r, dev, p, now);
      var out, added := InsertPick(u.picks, up);
      if !added {
        Bumped(Duplicate);
        return;
      }
      FiledPick(c, stations, units, dev, p, now, out);
      FiledKeeps(c.grid, stations, units, clock, r.unit, out, up);
      units := units[r.unit := u.(picks := out)];
      Bumped(Accepted);
    }

    /** Counts a verdict. */
    method Bumped(v: Verdict)
      requires ValidConfig(c) && Geo.ValidGrid(c.grid) && Votes.ValidRules(c.votes) && E.ValidTuning(c.evidence)
               && A.ValidTuning(c.evidence.assoc)
      requires MembersMatch(stations, units) && UnitsOk(c.grid, units, clock)
      requires EventsOk() && ConsumptionOk() && CacheSound() && 0.0 <= clock && lastTick <= clock
      modifies `counters
      ensures Valid() && counters == Bump(old(counters), v)
    {
      hide *;
      EventParts();
      BumpKeeps(c.judge.levels, active, past, log, seqNo, counters, v);
      counters := Bump(counters, v);
      EventWhole();
      Whole();
    }

    /**
     The end of a pick, looked for in the device's unit: a downgraded one is withdrawn, any other gets its final
     amplitude.
     */
    method EndPick(dev: Device, number: nat, accepted: bool, pga: real)
      requires Valid()
      modifies `units, `counters
      ensures Valid()
      ensures dev !in stations ==> units == old(units) && counters == old(counters)
      ensures dev in stations ==>
                var k := stations[dev].unit;
                k in old(units)
                && exists out, removed ::
                     Ended(old(units)[k].picks, dev, number, accepted, pga, out, removed)
                     && units == old(units)[k := old(units)[k].(picks := out)]
                     && counters == if removed then Bump(old(counters), Withdrawn) else old(counters)
      ensures dev in stations && !accepted ==>
                (NoPick(units, dev, number) <==> PickOnlyAt(old(units), dev, number, stations[dev].unit))
    {
      hide *;
      Parts();
      if dev !in stations { return; }
      var k := stations[dev].unit;
      StationHasUnit(stations, units, dev);
      PicksOf(c.grid, units, clock, k);
      var out, removed := FinishPick(units[k].picks, dev, number, accepted, pga);
      EndedKeeps(c.grid, stations, units, clock, k, out);
      if !accepted { WithdrawnExactly(units, k, dev, number, pga, out, removed); }
      units := units[k := units[k].(picks := out)];
      if removed {
        Bumped(Withdrawn);
      } else {
        Whole();
      }
    }

    // -------------------------------------------------------------------
    // Events
    // -------------------------------------------------------------------

    ghost function SceneNow(): Scene
      reads `active, `units, `consumed, `seqNo, `counters, `log
    {
      Scene(active, units, consumed, seqNo, counters, log)
    }

    /** Restores the invariant after a cluster has been applied. */
    ghost method Reconciled(s: Scene)
      requires ValidConfig(c) && Geo.ValidGrid(c.grid) && Votes.ValidRules(c.votes) && E.ValidTuning(c.evidence)
               && A.ValidTuning(c.evidence.assoc)
      requires MembersMatch(stations, s.units) && UnitsOk(c.grid, s.units, clock)
      requires Kept(c.judge.levels, s, SceneNow(), past, clock) && AllIn(recent, past)
      requires ConsumptionOk() && CacheSound() && 0.0 <= clock && lastTick <= clock
      ensures Valid() && Grown(s.active + past, active + past) && SameButVotes(s.units, units)
    {
      hide *;
      var t := SceneNow();
      SceneIs();
      KeptParts(c.judge.levels, s, t, past, clock);
      SameButVotesOk(c.grid, stations, s.units, units, clock);
      EventWhole();
      Whole();
    }

    lemma SceneIs()
      ensures SceneNow() == Scene(active, units, consumed, seqNo, counters, log)
    {
    }

    /** Hands the cluster's keys to the event that takes it in. */
    method AbsorbInto(j: nat, vs: seq<Vote>, support: real, now: real)
      requires Valid() && clock == now && support == J.Support(vs) && j < |active| + |recent|
      requires forall k :: k in J.KeysOf(vs) ==> k.second as real <= now + 5.0
      modifies `active, `consumed, `ever
      ensures Valid() && SceneNow() == Absorbed(old(SceneNow()), j, vs, now)
      ensures Grown(old(active) + past, active + past) && old(ever) <= ever
    {
      hide *;
      Parts();
      EventParts();
      ConsumptionParts();
      SceneIs();
      ghost var s := SceneNow();
      SceneWhole(c.judge.levels, s, past, clock);
      AbsorbKeeps(c.judge.levels, s, past, j, vs, now);
      AbsorbedIs(s, j, vs, now);
      if j < |active| {
        var ev := active[j];
        active := active[j := ev.(voteKeys := ev.voteKeys + J.KeysOf(vs),
                                  lastSupport := J.Later(ev.lastSupport, support))];
      } else {
        ConsumeOk(c.votes, ever, consumed, J.KeysOf(vs), clock, now);
        consumed, ever := Consume(consumed, J.KeysOf(vs), now), ever + J.KeysOf(vs);
      }
      SceneIs();
      ConsumptionWhole();
      Reconciled(s);
    }

    /** Judges the open event at i on the cluster. */
    method Revisit(i: nat, f: J.Finding, vs: seq<Vote>, support: real, now: real)
      returns (out: Event, ups: seq<J.Update>)
      requires Valid() && clock == now && now > 0.0 && support == J.Support(vs) && i < |active|
      requires forall k :: k in J.KeysOf(vs) ==> k.second as real <= now + 5.0
      modifies `active, `units, `counters, `log
      ensures Valid() && Updated(c.judge, old(SceneNow()), i, f, vs, now, out, SceneNow())
      ensures ups == J.UpdatesOf(Before(old(SceneNow()), i, f, vs, now), out, false,
                                 !J.Weaker(old(active)[i], f.metrics) && J.Changed(old(active)[i].metrics, f.metrics))
      ensures Grown(old(active) + past, active + past)
    {
      hide *;
      Parts();
      EventParts();
      SceneIs();
      ghost var s := SceneNow();
      SceneWhole(c.judge.levels, s, past, clock);
      ReadyAgain(c.judge, s, past, i, f, vs, now);
      var weaker := J.Weaker(active[i], f.metrics);
      var changed := !weaker && J.Changed(active[i].metrics, f.metrics);
      var base := J.Refreshed(active[i], f, weaker, J.KeysOf(vs), support, now);
      assert base == Before(s, i, f, vs, now) by { BeforeIs(s, i, f, vs, now); }
      var units2, k2;
      out, units2, k2, ups := J.Judge(c.judge, base, vs, now, false, changed, units, counters, LogOf(s, base.id));
      active, units, counters := active[i := out], units2, k2;
      log := log[base.id := LogOf(s, base.id) + [Eval(now, base.metrics)]];
      SceneIs();
      UpdatedIs(c.judge, s, i, f, vs, now, out, SceneNow());
      UpdateKeeps(c.judge, s, past, i, f, vs, now, out, SceneNow());
      Reconciled(s);
    }

    /** Opens a new event on the cluster. */
    method OpenEvent(f: J.Finding, vs: seq<Vote>, support: real, now: real) returns (out: Event, ups: seq<J.Update>)
      requires Valid() && clock == now && now > 0.0 && support == J.Support(vs)
               && Passes(c.judge.levels, Candidate, f.metrics)
      requires forall k :: k in J.KeysOf(vs) ==> k.second as real <= now + 5.0
      modifies `active, `units, `counters, `log, `seqNo
      ensures Valid() && Opened(c.judge, old(SceneNow()), f, vs, now, out, SceneNow())
      ensures ups == J.UpdatesOf(Opening(old(SceneNow()), f, vs, now), out, true, false)
      ensures Grown(old(active) + past, active + past)
    {
      hide *;
      Parts();
      EventParts();
      SceneIs();
      ghost var s := SceneNow();
      SceneWhole(c.judge.levels, s, past, clock);
      ReadyFirst(c.judge, s, f, vs, now);
      seqNo := seqNo + 1;
      var base := J.Refreshed(J.NewEvent(seqNo, f, now), f, false, J.KeysOf(vs), support, now);
      assert base == Opening(s, f, vs, now) by { OpeningIs(s, f, vs, now); }
      var k := counters.(created := counters.created + 1);
      var units2, k2;
      out, units2, k2, ups := J.Judge(c.judge, base, vs, now, true, false, units, k, []);
      active, units, counters := active + [out], units2, k2;
      log := log[base.id := [Eval(now, base.metrics)]];
      SceneIs();
      assert [] + [Eval(now, base.metrics)] == [Eval(now, base.metrics)];
      OpenedIs(c.judge, s, f, vs, now, out, SceneNow());
      OpenKeeps(c.judge, s, past, f, vs, now, out, SceneNow());
      Reconciled(s);
    }

    /** Weighs a cluster and lets it take its course: match, then gate, then absorption, then a new event. */
    method Apply(cl: A.Cluster, now: real, touched: set<nat>)
      returns (ups: seq<J.Update>, touched2: set<nat>, ghost f: J.Finding, ghost w: E.View, ghost p: real)
      requires Valid() && clock == now && now > 0.0 && E.ValidTuning(c.evidence) && A.Fitted(c.evidence.assoc, cl)
      requires forall v :: v in cl.votes ==> v.key.second as real <= now + 5.0
      modifies `active, `units, `consumed, `seqNo, `counters, `log, `ever
      ensures Valid()
      ensures E.Weighed(c.evidence, cl, E.Field(old(units), stations, now), f.metrics, f.lat, f.lng, w, p)
      ensures Applied(c.judge, old(SceneNow()), recent, f, cl.votes, now, touched, SceneNow(), touched2, ups)
      ensures f.originT == cl.fit.originT && Grown(old(active) + past, active + past) && old(ever) <= ever && |ups| <= 1
    {
      hide *;
      var m, lat, lng, view, chance := E.Evaluate(c.evidence, cl, E.Field(units, stations, now));
      var originT, vs := cl.fit.originT, cl.votes;
      var finding := J.Finding(m, lat, lng, originT);
      f, w, p, ups, touched2 := finding, view, chance, [], touched;
      KeysBounded(vs, now);
      SceneIs();
      ghost var s := SceneNow();
      CourseSteps(c.judge, s, recent, f, vs, touched);
      var i := J.Match(c.judge, active, vs, lat, lng, originT);
      var support := J.SupportOf(vs);
      MatchInside(c.judge, active, vs, finding);
      if i < |active| {
        if active[i].id in touched {
          NothingApplied(c.judge, s, recent, f, vs, now, touched);
          GrownSelf(active + past);
          return;
        }
        var out;
        out, ups := Revisit(i, finding, vs, support, now);
        touched2 := touched + {out.id};
        FurtherApplied(c.judge, s, recent, f, vs, now, touched, i, out, SceneNow(), ups);
        OneUpdate(c.judge, s, recent, f, vs, now, touched, SceneNow(), touched2, ups);
      } else if !Passes(c.judge.levels, Candidate, m) {
        NothingApplied(c.judge, s, recent, f, vs, now, touched);
        GrownSelf(active + past);
      } else {
        var j := J.Absorber(c.judge, active + recent, m.inlierUnits, lat, lng, originT);
        if j < |active + recent| {
          FragmentApplied(c.judge, s, recent, f, vs, now, touched, j);
          AbsorbInto(j, vs, support, now);
        } else {
          var out;
          out, ups := OpenEvent(finding, vs, support, now);
          touched2 := touched + {out.id};
          FirstApplied(c.judge, s, recent, f, vs, now, touched, out, SceneNow(), ups);
          OneUpdate(c.judge, s, recent, f, vs, now, touched, SceneNow(), touched2, ups);
        }
      }
    }

    // -------------------------------------------------------------------
    // Ticks
    // -------------------------------------------------------------------

    /** Every unit's turn. Offered votes are fair, and no key is offered twice. */
    method TickRegistry(dt: real, now: real)
      returns (votes: seq<Vote>, ghost ks: seq<UnitKey>, ghost after: map<UnitKey, Unit>,
               ghost offers: map<UnitKey, seq<Vote>>, ghost news: map<UnitKey, nat>)
      requires Valid() && clock == now
      modifies `units, `counters
      ensures Valid()
      ensures Lists(ks, old(units).Keys) && Remain(old(units), after, units) && Offers(offers, votes)
      ensures TickedTo(TickRulesOf(c), stations, old(units), dt, now, consumed, ks, after, offers, news)
      ensures Formed(news, ks) >= 0 && counters == Form(old(counters), Formed(news, ks))
      ensures AllTurned(TickRulesOf(c), stations, old(units), dt, now, consumed, units, votes, Formed(news, ks))
      ensures forall v :: v in votes ==> Fair(TickRulesOf(c), v.key.unit, now, consumed, v)
      ensures A.Placed(PlaceOf(c.grid), votes)
    {
      hide *;
      Parts();
      EventParts();
      SameVoteRules(c);
      ghost var units0 := units;
      var next, vs, formed, ks0, after0, offers0, news0 :=
        TickUnits(TickRulesOf(c), c.grid, stations, units, clock, dt, now, consumed);
      TickKeeps(TickRulesOf(c), c.grid, stations, units, clock, dt, now, consumed, ks0, after0, offers0, news0, next,
                vs);
      OffersPlaced(TickRulesOf(c), c.grid, stations, units, clock, dt, now, consumed, ks0, after0, offers0, news0, vs);
      FormKeeps(c.judge.levels, active, past, log, seqNo, counters, formed);
      units, counters := next, Form(counters, formed);
      votes, ks, after, offers, news := vs, ks0, after0, offers0, news0;
      EventWhole();
      Whole();
    }

    /** Drops the marks of keys too old to be offered again. */
    method Expire(now: real)
      requires Valid() && clock == now
      modifies `consumed
      ensures Valid() && consumed == Unexpired(c.votes, old(consumed), now)
    {
      hide *;
      Parts();
      ConsumptionParts();
      ExpiryIsSafe(c.votes, ever, consumed, clock, now);
      consumed := Unexpired(c.votes, consumed, now);
      ConsumptionWhole();
      Whole();
    }

    /** Associates the offered votes in time order, and takes the largest clusters first. */
    method Clusters(votes0: seq<Vote>) returns (cls: seq<A.Cluster>, ghost votes: seq<Vote>)
      requires Valid() && Once(votes0) && A.Placed(PlaceOf(c.grid), votes0)
      modifies `cache, `seen
      ensures Valid() && multiset(votes) == multiset(votes0) && InTimeOrder(c, votes)
      ensures seen == old(seen) + A.Readings(votes0) && A.Within(seen, votes)
      ensures A.ValidTuning(c.evidence.assoc) && ClustersOf(c.evidence.assoc, seen, votes, cls)
      ensures Once(votes) && A.KeyBag(cls) <= multiset(A.KeySeq(votes))
      ensures KeysFrom(cls, votes0) && forall cl :: cl in cls ==> A.Fitted(c.evidence.assoc, cl)
      ensures |votes0| < 2 ==> cls == [] && cache == old(cache)
    {
      hide *;
      Parts();
      TotalOrder(c);
      var sorted := S.Sort(votes0, (a: Vote, b: Vote) => VoteBefore(c, a, b));
      TimeOrdered(c, votes0);
      SameSize(sorted, votes0);
      OnceSorted(votes0, sorted);
      CacheParts();
      ghost var known := seen + A.Readings(votes0);
      SortedPlaced(PlaceOf(c.grid), seen, votes0, sorted);
      A.CacheLater(c.evidence.assoc, PlaceOf(c.grid), seen, known, cache);
      var found, next, rt, names, groups, lists :=
        A.Associate(c.evidence.assoc, sorted, cache, PlaceOf(c.grid), known);
      votes, cache, seen := sorted, next, known;
      CacheWhole();
      ClustersFair(c.evidence.assoc, known, votes0, sorted, found, rt, names, groups, lists);
      cls := S.Sort(found, Larger);
      SizedClusters(c.evidence.assoc, known, votes, found);
      SortedFair(c.evidence.assoc, votes0, found, cls);
      Whole();
    }

    /** What stays the same while clusters are applied. */
    ghost function SettingAt(now: real): Setting
      reads `stations, `recent
    {
      Setting(c.judge, c.evidence, stations, recent, now)
    }

    /** Applies the clusters one by one. */
    method ApplyAll(cls: seq<A.Cluster>, now: real)
      returns (ups: seq<J.Update>, ghost turns: seq<Turn>, ghost touched: set<nat>)
      requires Valid() && clock == now && now > 0.0 && A.ValidTuning(c.evidence.assoc)
      requires forall cl :: cl in cls ==> A.Fitted(c.evidence.assoc, cl)
      requires forall cl, v :: cl in cls && v in cl.votes ==> v.key.second as real <= now + 5.0
      modifies `active, `units, `consumed, `seqNo, `counters, `log, `ever
      ensures Valid() && Grown(old(active) + past, active + past) && old(ever) <= ever
      ensures AllTurns(SettingAt(now), cls, turns) && Chained(turns, old(SceneNow()), SceneNow(), touched)
      ensures ups == UpdatesIn(turns) && (cls == [] ==> ever == old(ever))
    {
      hide *;
      Parts();
      ghost var g := Setting(c.judge, c.evidence, stations, recent, now);
      ghost var active0, ever0, scene0 := active, ever, SceneNow();
      var done: set<nat> := {};
      ups, turns := [], [];
      GrownSelf(active + past);
      NoTurns(g, cls[..0], scene0);
      for i := 0 to |cls|
        invariant Valid() && clock == now && past == old(past) && recent == old(recent) && stations == old(stations)
        invariant Grown(active0 + past, active + past) && ever0 <= ever && (i == 0 ==> ever == ever0)
        invariant AllTurns(g, cls[..i], turns) && Chained(turns, scene0, SceneNow(), done)
        invariant ups == UpdatesIn(turns)
      {
        ghost var active1, scene1, units1 := active, SceneNow(), units;
        SceneIs();
        assert cls[i] in cls;
        var us, next, f, w, p := Apply(cls[i], now, done);
        GrownVia(active0 + past, active1 + past, active + past);
        ghost var t := Turn(cls[i], f, scene1, done, SceneNow(), next, us);
        TurnIs(g, t, w, p);
        TurnAdded(g, cls, i, turns, scene0, t);
        ups, done, turns := ups + us, next, turns + [t];
      }
      assert cls[..|cls|] == cls;
      touched := done;
      SettingIs(now);
    }

    lemma SettingIs(now: real)
      ensures SettingAt(now) == Setting(c.judge, c.evidence, stations, recent, now)
    {
    }

    /** Closes the events that have been quiet long enough. */
    method CloseQuiet(now: real) returns (ups: seq<J.Update>)
      requires Valid() && clock == now
      modifies `active, `past, `recent, `consumed, `counters, `ever
      ensures Valid() && active == Lively(c.judge, old(active), now)
      ensures var closed := Closings(c.judge, old(active), now);
              past == old(past) + closed && recent == old(recent) + closed && ups == ClosingUpdates(closed)
              && consumed == ConsumedBy(old(consumed), closed, now) && ever == old(ever) + KeysIn(closed)
      ensures counters == old(counters).(dismissed := counters.dismissed)
      ensures counters.dismissed == old(counters).dismissed + DismissedCount(Closings(c.judge, old(active), now))
      ensures Grown(old(active) + old(past), active + past) && old(ever) <= ever && old(past) <= past
    {
      hide *;
      Parts();
      EventParts();
      ConsumptionParts();
      var kept, closed, consumed2, k2, us :=
        CloseAll(c.judge, active, consumed, counters, now, c.votes, past, log, seqNo, ever);
      RecentMore(recent, past, closed);
      active, recent, consumed, counters := kept, recent + closed, consumed2, k2;
      past, ever, ups := past + closed, ever + KeysIn(closed), us;
      EventWhole();
      ConsumptionWhole();
      Whole();
    }

    /** Forgets events closed long ago. */
    method ForgetClosed(now: real)
      requires Valid()
      modifies `recent
      ensures Valid() && recent == Lately(c.votes, old(recent), now)
    {
      hide *;
      Parts();
      EventParts();
      var kept := Recently(c.votes, recent, now);
      LatelyIn(c.votes, recent, past, now);
      recent := kept;
      EventWhole();
      Whole();
    }

    /** The part of the engine that a quiet stretch can change. */
    ghost function SnapNow(): Snapshot
      reads `units, `consumed, `recent, `lastTick
    {
      Snapshot(units, consumed, recent, lastTick)
    }

    lemma SnapIs()
      ensures SnapNow() == Snapshot(units, consumed, recent, lastTick)
    {
    }

    lemma RestingParts(now: real)
      requires Resting(now)
      ensures active == [] && forall k :: k in units ==> Quiet(c.votes, units[k], now)
    {
    }

    /** No open event, and no pick that the tick at `now` would keep. */
    ghost predicate Resting(now: real)
      reads `units, `active
    {
      active == [] && forall k :: k in units ==> Quiet(c.votes, units[k], now)
    }

    /** The first half of a tick: every unit's turn, and the expiry of old marks. */
    method Offer(now: real) returns (votes: seq<Vote>, ghost formed: nat)
      requires Valid() && now >= clock
      modifies `units, `counters, `consumed, `lastTick, `clock
      ensures Valid() && clock == now && lastTick == now && consumed == Unexpired(c.votes, old(consumed), now)
      ensures AllTurned(TickRulesOf(c), stations, old(units), Step(old(lastTick), now), now, old(consumed), units,
                        votes, formed)
      ensures counters == Form(old(counters), formed)
      ensures Unused(c, votes, ever, old(consumed), now) && Once(votes) && A.Placed(PlaceOf(c.grid), votes)
      ensures old(Resting(now)) ==>
                units == IdleUnits(TickRulesOf(c), stations, old(units), Step(old(lastTick), now), now)
                && votes == [] && counters == old(counters)
    {
      hide *;
      Parts();
      ghost var resting, units0, counters0 := Resting(now), units, counters;
      if resting { RestingParts(now); }
      var dt := now - lastTick;
      if lastTick == 0.0 || dt < 0.0 { dt := 0.0; }
      if dt > 10.0 { dt := 10.0; }
      StepIs(lastTick, now, dt);
      Hear(now);
      Parts();
      lastTick := now;
      Whole();
      ghost var ks, after, offers, news;
      votes, ks, after, offers, news := TickRegistry(dt, now);
      Parts();
      ConsumptionParts();
      OffersOnce(offers, votes);
      NeverAgain(c, ever, consumed, clock, now, votes);
      SameVoteRules(c);
      formed := Formed(news, ks);
      if resting {
        QuietTick(TickRulesOf(c), stations, units0, dt, now, consumed, ks, after, offers, news, units, votes);
        FormNone(counters0);
      }
      Expire(now);
    }

    /** The second half of a tick: association, events, and closing. */
    method Process(votes: seq<Vote>, ghost formed: nat, now: real) returns (ups: seq<J.Update>, ghost trace: Trace)
      requires Valid() && clock == now && now > 0.0 && Once(votes) && A.Placed(PlaceOf(c.grid), votes)
      requires forall v :: v in votes ==> v.key.second as real <= now + 5.0
      modifies `active, `units, `consumed, `seqNo, `counters, `log, `ever, `past, `recent, `cache, `seen
      ensures Valid() && trace.opening == old(SceneNow()) && trace.votes == votes && trace.formed == formed
              && Once(trace.offered)
      ensures Traced(c, seen, stations, old(recent), now, trace) && seen == old(seen) + A.Readings(votes)
      ensures Closes(c, trace, now, old(past), old(recent), active, past, recent, consumed, counters, ups)
      ensures Grown(old(active) + old(past), active + past) && old(ever) <= ever
      ensures votes == [] && old(active) == [] ==>
                SceneNow() == old(SceneNow()) && ups == [] && recent == Lately(c.votes, old(recent), now)
                && cache == old(cache) && past == old(past) && ever == old(ever)
    {
      hide *;
      Parts();
      SceneIs();
      ghost var active0, recent0 := active, recent;
      var ups1;
      ups1, trace := Turns(votes, formed, now);
      ghost var active1, past1, closing := active, past, SceneNow();
      SceneIs();
      var ups2 := CloseQuiet(now);
      NothingCloses(c.judge, now, closing.consumed);
      assert recent0 + [] == recent0 && past1 + [] == past1;
      ForgetClosed(now);
      GrownVia(active0 + past1, active1 + past1, active + past);
      ups := ups1 + ups2;
      ClosesIs(c, trace, now, past1, recent0, active, past, recent, consumed, counters, ups);
      SceneIs();
    }

    /** The votes are associated, and the clusters have their turns. */
    method Turns(votes: seq<Vote>, ghost formed: nat, now: real) returns (ups: seq<J.Update>, ghost trace: Trace)
      requires Valid() && clock == now && now > 0.0 && Once(votes) && A.Placed(PlaceOf(c.grid), votes)
      requires forall v :: v in votes ==> v.key.second as real <= now + 5.0
      modifies `active, `units, `consumed, `seqNo, `counters, `log, `ever, `cache, `seen
      ensures Valid() && Grown(old(active) + past, active + past) && old(ever) <= ever
      ensures trace.opening == old(SceneNow()) && trace.closing == SceneNow() && trace.votes == votes
      ensures trace.formed == formed && Once(trace.offered)
      ensures Traced(c, seen, stations, recent, now, trace) && ups == UpdatesIn(trace.turns)
      ensures seen == old(seen) + A.Readings(votes)
      ensures votes == [] ==> SceneNow() == old(SceneNow()) && ups == [] && cache == old(cache) && ever == old(ever)
    {
      hide *;
      Parts();
      ghost var opening := SceneNow();
      var cls, sorted := Clusters(votes);
      ClusterKeysBounded(votes, cls, now);
      SceneIs();
      ghost var turns, touched;
      ups, turns, touched := ApplyAll(cls, now);
      SceneIs();
      SettingIs(now);
      trace := Trace(votes, formed, sorted, cls, turns, touched, opening, SceneNow());
      TraceIs(c, seen, stations, recent, now, trace);
      if cls == [] { NothingTurned(SettingAt(now), cls, turns, opening, SceneNow(), touched); }
    }

    /**
     One tick. Every unit has its turn; exactly the votes they offer are associated, in time order; the clusters of that
     association have their turns, largest first; then the quiet events close. No key that was ever consumed is offered
     to association again; no key is offered twice or ends up in two clusters; no event is lost, lowered or revised.
     A resting engine only ages, and reports nothing.
     */
    method Tick(now: real) returns (ups: seq<J.Update>, ghost trace: Trace)
      requires Valid() && now >= clock && now > 0.0
      modifies this
      ensures Valid() && clock == now && lastTick == now && stations == old(stations)
      ensures Opens(c, stations, old(SceneNow()), old(lastTick), now, trace)
      ensures Traced(c, seen, stations, old(recent), now, trace) && seen == old(seen) + A.Readings(trace.votes)
      ensures Unused(c, trace.offered, old(ever), old(consumed), now) && Once(trace.offered)
      ensures Closes(c, trace, now, old(past), old(recent), active, past, recent, consumed, counters, ups)
      // over the whole tick
      ensures Grown(old(active) + old(past), active + past) && old(ever) <= ever
      ensures old(Resting(now)) ==>
                SnapNow() == IdleTick(c, stations, old(SnapNow()), now) && ups == [] && trace.offered == []
                  && active == []
                && counters == old(counters) && cache == old(cache) && seqNo == old(seqNo) && past == old(past)
                && ever == old(ever)
    {
      hide *;
      ghost var snap, resting := SnapNow(), Resting(now);
      if resting { RestingParts(now); }
      SnapIs();
      SceneIs();
      ghost var before := SceneNow();
      var votes, formed := Offer(now);
      UnusedBounded(c, votes, ever, old(consumed), now);
      SceneIs();
      ups, trace := Process(votes, formed, now);
      OpensIs(c, stations, before, old(lastTick), now, trace);
      TraceOffers(c, seen, stations, old(recent), now, trace);
      UnusedSorted(c, votes, trace.offered, old(ever), old(consumed), now);
      SceneIs();
      SnapIs();
      IdleTickIs(c, stations, snap, now);
    }

    // -------------------------------------------------------------------
    // Quiet stretches
    // -------------------------------------------------------------------

    /** Moves the clock without associating anything, crediting exposure in one go. */
    method Advance(now: real)
      requires Valid() && now >= clock
      modifies `units, `lastTick, `clock
      ensures Valid() && clock == now && SnapNow() == Advanced(c, stations, old(SnapNow()), now)
    {
      hide *;
      ghost var s := SnapNow();
      SnapIs();
      Hear(now);
      Parts();
      AdvancedIs(c, stations, s, now);
      if lastTick > 0.0 && now > lastTick {
        var next := CreditAll(c, stations, units, now - lastTick, now);
        CreditKeeps(c, stations, units, now - lastTick, now, clock);
        units := next;
      }
      lastTick := now;
      Whole();
      SnapIs();
    }

    /** No open event, and no pick recent enough to matter to any later tick. */
    method Idle(now: real) returns (idle: bool)
      requires Valid()
      ensures idle <==> active == [] && AllPast(c, units, now)
    {
      hide *;
      Parts();
      if |active| > 0 { return false; }
      idle := NoRecentPicks(c, c.grid, units, clock, now);
    }

    lemma RestingWhole(now: real)
      requires active == [] && forall k :: k in units ==> Quiet(c.votes, units[k], now)
      ensures Resting(now)
    {
    }

    /** Ticks at each of the given times. From an idle engine nothing is reported, and the state only ages. */
    method TickThrough(times: seq<real>) returns (ups: seq<J.Update>)
      requires Valid() && active == [] && AllPast(c, units, clock) && lastTick > 0.0
      requires F.Steps(lastTick, times) && (times != [] ==> times[0] > clock)
      modifies this
      ensures Valid() && stations == old(stations) && ups == [] && active == []
      ensures SnapNow() == F.IdleTicks(c, stations, old(SnapNow()), times)
      ensures counters == old(counters) && past == old(past) && ever == old(ever) && cache == old(cache)
      ensures AllPast(c, units, old(clock)) && clock == if times == [] then old(clock) else times[|times| - 1]
    {
      hide *;
      ghost var s, clock0 := SnapNow(), clock;
      ups := [];
      Parts();
      assert F.IdleTicks(c, stations, s, times[..0]) == s by { NoTicks(c, stations, s, times[..0]); }
      for i := 0 to |times|
        invariant Valid() && stations == old(stations) && ups == [] && active == []
        invariant SnapNow() == F.IdleTicks(c, stations, s, times[..i])
        invariant counters == old(counters) && past == old(past) && ever == old(ever) && cache == old(cache)
        invariant AllPast(c, units, clock0) && clock == if i == 0 then clock0 else times[i - 1]
      {
        TimesGrow(old(lastTick), times, clock0, i);
        PastIsQuiet(c, units, clock0, times[i]);
        RestingWhole(times[i]);
        MoreTicks(c, stations, s, times, i);
        ghost var before := SnapNow();
        var us, trace := Tick(times[i]);
        SnapIs();
        IdleTickForgets(c, stations, before, times[i], clock0);
        ups := ups + us;
      }
      assert times[..|times|] == times;
    }

    // -------------------------------------------------------------------
    // Persistence
    // -------------------------------------------------------------------

    /** Every unit's learned history. */
    method ExportUnitStates() returns (states: seq<UnitState>)
      ensures H.ExportOf(units, states)
    {
      states := H.ExportStates(units);
    }

    /** Restores learned history, creating the units it belongs to. */
    method ImportUnitStates(states: seq<UnitState>)
      requires Valid()
      modifies `units
      ensures Valid() && Geo.ValidGrid(c.grid) && units == H.ImportAll(c.grid, old(units), states)
    {
      hide *;
      Parts();
      units := H.ImportStates(c.grid, stations, units, states, clock);
      Whole();
    }
  }

  lemma AdvancedIs(c: Config, stations: map<Device, Station>, s: Snapshot, now: real)
    ensures Advanced(c, stations, s, now)
            == if s.lastTick > 0.0 && now > s.lastTick
               then s.(units := Credited(c, stations, s.units, now - s.lastTick, now), lastTick := now)
               else s.(lastTick := now)
  {
  }

  lemma CreditKeeps(c: Config, stations: map<Device, Station>, units: map<UnitKey, Unit>, dt: real, now: real,
                    clock: real)
    requires Geo.ValidGrid(c.grid) && UnitsOk(c.grid, units, clock) && MembersMatch(stations, units)
    ensures UnitsOk(c.grid, Credited(c, stations, units, dt, now), clock)
    ensures MembersMatch(stations, Credited(c, stations, units, dt, now))
  {
    hide ListeningAt, GoodPicks, Geo.Key, Geo.Valid, Geo.Center, Geo.ValidGrid;
    var r := Credited(c, stations, units, dt, now);
    forall k | k in r ensures UnitOk(c.grid, k, r[k], clock) { assert UnitOk(c.grid, k, units[k], clock); }
  }

  lemma NoTicks(c: Config, stations: map<Device, Station>, s: Snapshot, times: seq<real>)
    requires times == []
    ensures F.IdleTicks(c, stations, s, times) == s
  {
  }

  lemma MoreTicks(c: Config, stations: map<Device, Station>, s: Snapshot, times: seq<real>, i: nat)
    requires i < |times|
    ensures F.IdleTicks(c, stations, s, times[..i + 1])
            == IdleTick(c, stations, F.IdleTicks(c, stations, s, times[..i]), times[i])
  {
    hide IdleTick;
    assert times[..i + 1][..i] == times[..i];
  }

  /** An idle tick leaves no pick. */
  lemma IdleTickForgets(c: Config, stations: map<Device, Station>, s: Snapshot, now: real, t: real)
    ensures AllPast(c, IdleTick(c, stations, s, now).units, t)
  {
  }

  lemma {:induction false} TimesGrow(first: real, times: seq<real>, clock: real, i: nat)
    requires F.Steps(first, times) && i < |times| && times[0] > clock && first > 0.0
    ensures times[i] > clock && times[i] > 0.0 && (i > 0 ==> times[i] > times[i - 1])
    decreases i
  {
    assert F.Previous(first, times, i) < times[i];
    if i > 0 { TimesGrow(first, times, clock, i - 1); }
  }

  /**
   What happened to the votes of a tick: the units' votes and how many were new, the same in the order they are offered,
   their clusters, largest first, each cluster's turn, and the scenes before the first and after the last turn.
   */
  datatype Trace = Trace(votes: seq<Vote>, formed: nat, offered: seq<Vote>, clusters: seq<A.Cluster>, turns: seq<Turn>,
                         touched: set<nat>, opening: Scene, closing: Scene)

  /** The clusters are the association of the votes, largest first; clusters of one size keep their order. */
  ghost predicate ClustersOf(c: A.Tuning, seen: set<A.Reading>, votes: seq<Vote>, cls: seq<A.Cluster>) {
    A.ValidTuning(c) && exists found :: A.AssociationOf(c, seen, votes, found) && cls == S.Sort(found, Larger)
  }

  /** The same without a memory: the clusters have the votes and sources of extractions of the votes' own components. */
  ghost predicate ExactClustersOf(c: A.Tuning, votes: seq<Vote>, cls: seq<A.Cluster>) {
    A.ValidTuning(c) && exists found :: A.ExactAssociationOf(c, votes, found) && cls == S.Sort(found, Larger)
  }

  /**
   All votes are offered in time order, the clusters are the association of exactly those votes, and each had its turn
   in order of size. Every cluster is a fitted source, and every offered key is in one cluster at most.
   */
  ghost predicate Traced(c: Config, seen: set<A.Reading>, stations: map<Device, Station>, recent: seq<Event>, now: real,
                         t: Trace)
  {
    && multiset(t.offered) == multiset(t.votes) && InTimeOrder(c, t.offered) && A.Within(seen, t.offered)
    && A.ValidTuning(c.evidence.assoc) && ClustersOf(c.evidence.assoc, seen, t.offered, t.clusters)
    && (forall cl :: cl in t.clusters ==> A.Fitted(c.evidence.assoc, cl))
    && A.KeyBag(t.clusters) <= multiset(A.KeySeq(t.offered))
    && AllTurns(Setting(c.judge, c.evidence, stations, recent, now), t.clusters, t.turns)
    && Chained(t.turns, t.opening, t.closing, t.touched)
  }

  /** In every run that told each vote key's readings apart, every tick's clusters are exact. */
  lemma TracedExactly(c: Config, seen: set<A.Reading>, stations: map<Device, Station>, recent: seq<Event>, now: real,
                      t: Trace)
    requires Traced(c, seen, stations, recent, now, t) && A.ToldApart(seen)
    ensures ExactClustersOf(c.evidence.assoc, t.offered, t.clusters)
  {
    hide AllTurns, Chained, A.KeyBag, A.Fitted, A.AssociationOf, A.ExactAssociationOf, A.Within, InTimeOrder,
         A.ToldApart;
    var found :| A.AssociationOf(c.evidence.assoc, seen, t.offered, found) && t.clusters == S.Sort(found, Larger);
    A.AssociationExactly(c.evidence.assoc, seen, t.offered, found);
  }

  lemma SortedPlaced(at: UnitKey -> (real, real), seen: set<A.Reading>, votes0: seq<Vote>, sorted: seq<Vote>)
    requires multiset(sorted) == multiset(votes0) && A.Placed(at, votes0)
    ensures A.Placed(at, sorted) && A.Within(seen + A.Readings(votes0), sorted)
  {
    forall v | v in sorted ensures v in votes0 { assert v in multiset(sorted); }
  }

  lemma TraceIs(c: Config, seen: set<A.Reading>, stations: map<Device, Station>, recent: seq<Event>, now: real,
                t: Trace)
    requires multiset(t.offered) == multiset(t.votes) && InTimeOrder(c, t.offered) && A.Within(seen, t.offered)
    requires A.ValidTuning(c.evidence.assoc) && ClustersOf(c.evidence.assoc, seen, t.offered, t.clusters)
    requires forall cl :: cl in t.clusters ==> A.Fitted(c.evidence.assoc, cl)
    requires A.KeyBag(t.clusters) <= multiset(A.KeySeq(t.offered))
    requires AllTurns(Setting(c.judge, c.evidence, stations, recent, now), t.clusters, t.turns)
    requires Chained(t.turns, t.opening, t.closing, t.touched)
    ensures Traced(c, seen, stations, recent, now, t)
  {
    hide A.ValidTuning, E.ValidTuning, A.Fitted, A.KeyBag, A.KeySeq, AllTurns, Chained, InTimeOrder, ClustersOf;
  }

  lemma TraceOffers(c: Config, seen: set<A.Reading>, stations: map<Device, Station>, recent: seq<Event>, now: real,
                    t: Trace)
    requires Traced(c, seen, stations, recent, now, t)
    ensures multiset(t.offered) == multiset(t.votes)
  {
  }

  lemma TotalOrder(c: Config)
    requires ValidConfig(c)
    ensures S.TotalPreorder(c.before)
  {
  }

  lemma SizedClusters(c: A.Tuning, seen: set<A.Reading>, votes: seq<Vote>, found: seq<A.Cluster>)
    requires A.ValidTuning(c) && A.AssociationOf(c, seen, votes, found)
    ensures ClustersOf(c, seen, votes, S.Sort(found, Larger)) && multiset(S.Sort(found, Larger)) == multiset(found)
  {
    hide A.AssociationOf, A.ValidTuning;
  }

  lemma NothingTurned(g: Setting, cls: seq<A.Cluster>, turns: seq<Turn>, s: Scene, t: Scene, touched: set<nat>)
    requires cls == [] && AllTurns(g, cls, turns) && Chained(turns, s, t, touched)
    ensures t == s && UpdatesIn(turns) == []
  {
  }

  lemma TurnIs(g: Setting, t: Turn, w: E.View, p: real)
    requires E.ValidTuning(g.evidence) && t.f.originT == t.cl.fit.originT
    requires E.Weighed(g.evidence, t.cl, E.Field(t.before.units, g.stations, g.now), t.f.metrics, t.f.lat, t.f.lng, w,
                       p)
    requires Applied(g.judge, t.before, g.recent, t.f, t.cl.votes, g.now, t.touched, t.after, t.touched2, t.ups)
    ensures TurnOk(g, t)
  {
    hide Applied, E.Weighed, E.ValidTuning;
  }

  /** How a tick opens: every unit has its turn, old marks expire, and the new votes are counted. */
  ghost predicate Opens(c: Config, stations: map<Device, Station>, s: Scene, lastTick: real, now: real, t: Trace) {
    && AllTurned(TickRulesOf(c), stations, s.units, Step(lastTick, now), now, s.consumed, t.opening.units, t.votes,
                 t.formed)
    && t.opening == s.(units := t.opening.units, consumed := Unexpired(c.votes, s.consumed, now),
                       counters := Form(s.counters, t.formed))
  }

  /** How a tick closes: exactly the quiet events close and are remembered, and their keys are consumed. */
  ghost predicate Closes(c: Config, t: Trace, now: real, past0: seq<Event>, recent0: seq<Event>, active: seq<Event>,
                         past: seq<Event>, recent: seq<Event>, consumed: map<VoteKey, real>, k: Counters,
                         ups: seq<J.Update>)
  {
    var closed := Closings(c.judge, t.closing.active, now);
    && active == Lively(c.judge, t.closing.active, now) && past == past0 + closed
    && recent == Lately(c.votes, recent0 + closed, now) && consumed == ConsumedBy(t.closing.consumed, closed, now)
    && k == t.closing.counters.(dismissed := k.dismissed)
    && k.dismissed == t.closing.counters.dismissed + DismissedCount(closed)
    && ups == UpdatesIn(t.turns) + ClosingUpdates(closed)
  }

  lemma OpensIs(c: Config, stations: map<Device, Station>, s: Scene, lastTick: real, now: real, t: Trace)
    requires AllTurned(TickRulesOf(c), stations, s.units, Step(lastTick, now), now, s.consumed, t.opening.units,
                       t.votes, t.formed)
    requires t.opening == s.(units := t.opening.units, consumed := Unexpired(c.votes, s.consumed, now),
                             counters := Form(s.counters, t.formed))
    ensures Opens(c, stations, s, lastTick, now, t)
  {
    hide AllTurned, Unexpired, Form;
  }

  lemma ClosesIs(c: Config, t: Trace, now: real, past0: seq<Event>, recent0: seq<Event>, active: seq<Event>,
                 past: seq<Event>, recent: seq<Event>, consumed: map<VoteKey, real>, k: Counters, ups: seq<J.Update>)
    requires var closed := Closings(c.judge, t.closing.active, now);
             && active == Lively(c.judge, t.closing.active, now) && past == past0 + closed
             && recent == Lately(c.votes, recent0 + closed, now)
             && consumed == ConsumedBy(t.closing.consumed, closed, now)
             && k == t.closing.counters.(dismissed := k.dismissed)
             && k.dismissed == t.closing.counters.dismissed + DismissedCount(closed)
             && ups == UpdatesIn(t.turns) + ClosingUpdates(closed)
    ensures Closes(c, t, now, past0, recent0, active, past, recent, consumed, k, ups)
  {
    hide Closings, Lively, Lately, ConsumedBy, DismissedCount, ClosingUpdates, UpdatesIn;
  }

  lemma RecentMore(recent: seq<Event>, past: seq<Event>, closed: seq<Event>)
    requires AllIn(recent, past)
    ensures AllIn(recent + closed, past + closed)
  {
    var r, p := recent + closed, past + closed;
    forall i | 0 <= i < |r| ensures r[i] in p {
      if i < |recent| {
        assert recent[i] in past;
      } else {
        assert closed[i - |recent|] in closed;
      }
    }
  }

  /** The events that closed lately. */
  method Recently(c: VoteRules, evs: seq<Event>, now: real) returns (kept: seq<Event>)
    ensures kept == Lately(c, evs, now)
  {
    hide StillRecent;
    kept := [];
    for i := 0 to |evs|
      invariant kept == Lately(c, evs[..i], now)
    {
      assert evs[..i + 1][..i] == evs[..i];
      if StillRecent(c, evs[i], now) { kept := kept + [evs[i]]; }
    }
    assert evs[..|evs|] == evs;
  }

  lemma LatelyIn(c: VoteRules, evs: seq<Event>, past: seq<Event>, now: real)
    requires AllIn(evs, past)
    ensures AllIn(Lately(c, evs, now), past)
  {
    var r := Lately(c, evs, now);
    forall i | 0 <= i < |r| ensures r[i] in past {
      assert r[i] in evs;
      var j :| 0 <= j < |evs| && evs[j] == r[i];
    }
  }

  lemma StepIs(lastTick: real, now: real, dt: real)
    requires var d := if lastTick == 0.0 || now - lastTick < 0.0 then 0.0 else now - lastTick;
             dt == if d > 10.0 then 10.0 else d
    ensures dt == Step(lastTick, now)
  {
  }

  /** Votes whose keys were never consumed, and whose times are within the window and the near future. */
  ghost predicate Unused(c: Config, votes: seq<Vote>, ever: set<VoteKey>, consumed: map<VoteKey, real>, now: real) {
    forall v :: v in votes ==>
      v.key !in ever && v.key !in consumed && v.t >= now - c.votes.assocWindow && v.key.second as real <= now + 5.0
  }

  /** A vote that is fair now has a key that was never consumed. */
  lemma NeverAgain(c: Config, ever: set<VoteKey>, consumed: map<VoteKey, real>, clock: real, now: real,
                   votes: seq<Vote>)
    requires EverOk(c.votes, ever, consumed, clock) && clock <= now
    requires forall v :: v in votes ==> Fair(TickRulesOf(c), v.key.unit, now, consumed, v)
    ensures Unused(c, votes, ever, consumed, now)
  {
    forall v | v in votes
      ensures v.key !in ever && v.key !in consumed && v.t >= now - c.votes.assocWindow
              && v.key.second as real <= now + 5.0
    {
      assert Fair(TickRulesOf(c), v.key.unit, now, consumed, v);
    }
  }

  lemma OffersOnce(offers: map<UnitKey, seq<Vote>>, votes: seq<Vote>)
    requires Offers(offers, votes)
    ensures Once(votes)
  {
  }

  lemma FormNone(k: Counters)
    ensures Form(k, 0) == k
  {
  }

  lemma UnusedSorted(c: Config, votes: seq<Vote>, sorted: seq<Vote>, ever: set<VoteKey>, consumed: map<VoteKey, real>,
                     now: real)
    requires multiset(sorted) == multiset(votes) && Unused(c, votes, ever, consumed, now)
    ensures Unused(c, sorted, ever, consumed, now) && |sorted| == |votes| && (votes == [] ==> sorted == [])
  {
    SameSize(sorted, votes);
    forall v | v in sorted ensures v in votes { assert v in multiset(sorted); }
  }

  lemma UnusedBounded(c: Config, votes: seq<Vote>, ever: set<VoteKey>, consumed: map<VoteKey, real>, now: real)
    requires Unused(c, votes, ever, consumed, now)
    ensures forall v :: v in votes ==> v.key.second as real <= now + 5.0
  {
  }

  lemma ClusterKeysBounded(votes: seq<Vote>, cls: seq<A.Cluster>, now: real)
    requires KeysFrom(cls, votes) && forall v :: v in votes ==> v.key.second as real <= now + 5.0
    ensures forall cl, v :: cl in cls && v in cl.votes ==> v.key.second as real <= now + 5.0
  {
    forall cl, v | cl in cls && v in cl.votes ensures v.key.second as real <= now + 5.0 {
      assert HasKey(votes, v.key);
      var w :| w in votes && w.key == v.key;
    }
  }

  lemma NothingCloses(c: J.Tuning, now: real, consumed: map<VoteKey, real>)
    ensures Lively(c, [], now) == [] && Closings(c, [], now) == [] && ClosingUpdates([]) == []
    ensures ConsumedBy(consumed, [], now) == consumed && KeysIn([]) == {} && DismissedCount([]) == 0
  {
  }

  lemma IdleTickIs(c: Config, stations: map<Device, Station>, s: Snapshot, now: real)
    ensures IdleTick(c, stations, s, now)
            == Snapshot(IdleUnits(TickRulesOf(c), stations, s.units, Step(s.lastTick, now), now),
                        Unexpired(c.votes, s.consumed, now), Lately(c.votes, s.recent, now), now)
  {
  }

  /** Counts newly formed votes. */
  function Form(k: Counters, formed: nat): Counters { k.(votesFormed := k.votesFormed + formed) }

  lemma FormKeeps(r: Rules, open: seq<Event>, closed: seq<Event>, log: map<nat, seq<Eval>>, last: nat, k: Counters,
                  formed: nat)
    requires BookOk(r, open, closed, log, last, k)
    ensures BookOk(r, open, closed, log, last, Form(k, formed))
  {
    hide Numbered, AllOnRecord, AllOpen, AllSettled, Reached, DismissedCount;
  }

  lemma SameVoteRules(c: Config)
    ensures TickRulesOf(c).votes == c.votes
  {
  }

  lemma SameSize(a: seq<Vote>, b: seq<Vote>)
    requires multiset(a) == multiset(b)
    ensures |a| == |b|
  {
    assert |multiset(a)| == |a| && |multiset(b)| == |b|;
  }

  /** Sorting repeats no key. */
  lemma OnceSorted(a: seq<Vote>, b: seq<Vote>)
    requires Once(a) && multiset(a) == multiset(b)
    ensures Once(b)
  {
    KeysMapped(a);
    KeysMapped(b);
    S.MapPermutation((v: Vote) => v.key, a, b);
  }

  ghost predicate HasKey(votes: seq<Vote>, k: VoteKey) { exists w :: w in votes && w.key == k }

  /** The clusters hold no key that was not offered. */
  ghost predicate KeysFrom(cls: seq<A.Cluster>, votes: seq<Vote>) {
    forall cl, v :: cl in cls && v in cl.votes ==> HasKey(votes, v.key)
  }

  /** Association hands every key of the sorted votes to one cluster at most. */
  lemma ClustersFair(c: A.Tuning, seen: set<A.Reading>, votes0: seq<Vote>, sorted: seq<Vote>, found: seq<A.Cluster>,
                     rt: seq<nat>, names: seq<nat>, groups: seq<seq<Vote>>, lists: seq<seq<A.Cluster>>)
    requires A.ValidTuning(c) && multiset(sorted) == multiset(votes0)
    requires |sorted| < 2 ==> found == []
    requires |sorted| >= 2 ==> A.Associated(c, seen, sorted, found, rt, names, groups, lists)
    ensures A.KeyBag(found) <= multiset(A.KeySeq(sorted))
    ensures forall cl :: cl in found ==> A.Fitted(c, cl)
    ensures KeysFrom(found, votes0)
  {
    hide A.Associated, A.Fitted;
    if |sorted| >= 2 { A.AssociationConserves(c, seen, sorted, found, rt, names, groups, lists); }
    forall cl, v | cl in found && v in cl.votes ensures HasKey(votes0, v.key) {
      A.BagHas(found, cl, v);
      KeyOwner(sorted, v.key);
      var w :| w in sorted && w.key == v.key;
      assert w in multiset(votes0);
    }
  }

  lemma SortedFair(c: A.Tuning, votes0: seq<Vote>, found: seq<A.Cluster>, cls: seq<A.Cluster>)
    requires A.ValidTuning(c) && multiset(cls) == multiset(found)
    requires forall cl :: cl in found ==> A.Fitted(c, cl)
    requires KeysFrom(found, votes0)
    ensures A.KeyBag(cls) == A.KeyBag(found) && (found == [] ==> cls == [])
    ensures forall cl :: cl in cls ==> A.Fitted(c, cl)
    ensures KeysFrom(cls, votes0)
  {
    hide A.Fitted, A.KeyBag, A.ValidTuning, HasKey;
    A.KeyBagPermutation(cls, found);
    assert |multiset(cls)| == |cls| && |multiset(found)| == |found|;
    forall cl | cl in cls ensures cl in found { assert cl in multiset(found); }
  }

  lemma {:induction false} KeysMapped(vs: seq<Vote>)
    ensures A.KeySeq(vs) == S.Map((v: Vote) => v.key, vs)
  {
    if vs != [] {
      KeysMapped(vs[..|vs| - 1]);
      assert A.KeySeq(vs) == A.KeySeq(vs[..|vs| - 1]) + [vs[|vs| - 1].key];
    }
  }

  lemma AbsorbedIs(s: Scene, j: nat, vs: seq<Vote>, now: real)
    ensures Absorbed(s, j, vs, now)
            == if j < |s.active|
               then s.(active := s.active[j := s.active[j].(voteKeys := s.active[j].voteKeys + J.KeysOf(vs),
                                                            lastSupport := J.Later(s.active[j].lastSupport,
                                                                                   J.Support(vs)))])
               else s.(consumed := Consume(s.consumed, J.KeysOf(vs), now))
  {
  }

  lemma BeforeIs(s: Scene, i: nat, f: J.Finding, vs: seq<Vote>, now: real)
    requires i < |s.active|
    ensures Before(s, i, f, vs, now)
            == J.Refreshed(s.active[i], f, J.Weaker(s.active[i], f.metrics), J.KeysOf(vs), J.Support(vs), now)
  {
  }

  lemma OpeningIs(s: Scene, f: J.Finding, vs: seq<Vote>, now: real)
    ensures Opening(s, f, vs, now)
            == J.Refreshed(J.NewEvent(s.seqNo + 1, f, now), f, false, J.KeysOf(vs), J.Support(vs), now)
  {
  }

  lemma UpdatedIs(c: J.Tuning, s: Scene, i: nat, f: J.Finding, vs: seq<Vote>, now: real, out: Event, t: Scene)
    requires i < |s.active|
    requires var base := Before(s, i, f, vs, now);
             J.Judged(c, base, vs, now, s.units, s.counters, LogOf(s, base.id), out, t.units, t.counters)
             && t == s.(active := s.active[i := out], units := t.units, counters := t.counters,
                        log := s.log[base.id := LogOf(s, base.id) + [Eval(now, base.metrics)]])
    ensures Updated(c, s, i, f, vs, now, out, t)
  {
  }

  lemma OpenedIs(c: J.Tuning, s: Scene, f: J.Finding, vs: seq<Vote>, now: real, out: Event, t: Scene)
    requires var base := Opening(s, f, vs, now);
             J.Judged(c, base, vs, now, s.units, s.counters.(created := s.counters.created + 1), [], out, t.units,
                      t.counters)
             && t == s.(active := s.active + [out], units := t.units, counters := t.counters, seqNo := s.seqNo + 1,
                        log := s.log[base.id := [Eval(now, base.metrics)]])
    ensures Opened(c, s, f, vs, now, out, t)
  {
  }

  lemma MatchInside(c: J.Tuning, evs: seq<Event>, vs: seq<Vote>, f: J.Finding)
    ensures J.MatchOf(c, evs, J.KeysOf(vs), f.lat, f.lng, f.originT) <= |evs|
  {
  }

  // ---------------------------------------------------------------------
  // The beginning
  // ---------------------------------------------------------------------

  /** Counting picks leaves the event counters alone. */
  lemma BumpKeeps(r: Rules, open: seq<Event>, closed: seq<Event>, log: map<nat, seq<Eval>>, last: nat, k: Counters,
                  v: Verdict)
    requires BookOk(r, open, closed, log, last, k)
    ensures BookOk(r, open, closed, log, last, Bump(k, v))
  {
    hide Numbered, AllOnRecord, AllOpen, AllSettled, Reached, DismissedCount;
  }

  lemma NothingOk(c: Config)
    requires ValidConfig(c)
    ensures MembersMatch(map[], map[]) && UnitsOk(c.grid, map[], 0.0) && BookOk(c.judge.levels, [], [], map[], 0, ZERO)
    ensures KeysPast([], 0.0) && AllIn([], []) && ConsumedOk(map[]) && EverOk(c.votes, {}, map[], 0.0)
    ensures A.CacheOk(c.evidence.assoc, PlaceOf(c.grid), {}, map[])
  {
    hide UnitOk, A.Solved, OnRecord;
    EmptyBook(c.judge.levels);
    hide BookOk;
  }

  lemma EmptyBook(r: Rules)
    ensures BookOk(r, [], [], map[], 0, ZERO)
  {
    hide OnRecord;
  }
}
