/** Stations and their picks coming, moving and going, on values; and the picks a moved station leaves behind. */
module Arrivals {
  import opened Votes
  import opened Units
  import opened Roster
  import opened Registry
  import opened Book
  import opened NetworkRules
  import Geo

  // ---------------------------------------------------------------------
  // Picks arriving
  // ---------------------------------------------------------------------

  datatype Verdict = Rejected | Unknown | Stale | Duplicate | Accepted | Withdrawn

  function Bump(k: Counters, v: Verdict): Counters {
    match v
    case Rejected => k.(rejected := k.rejected + 1)
    case Unknown => k.(unknown := k.unknown + 1)
    case Stale => k.(stale := k.stale + 1)
    case Duplicate => k.(duplicate := k.duplicate + 1)
    case Accepted => k.(accepted := k.accepted + 1)
    case Withdrawn => k.(downgraded := k.downgraded + 1)
  }

  /** The pick as its unit files it. */
  function PickOf(c: Config, r: Station, dev: Device, p: StationPick, now: real): UnitPick {
    UnitPick(dev, p.seqNo, p.onsetT, p.sigmaT, p.pga, now, r.source,
             now - r.enrolledAt >= c.establishedAge && r.streamedSec >= c.establishedStream)
  }

  lemma OnsetKept(c: Config, r: Station, dev: Device, p: StationPick, now: real)
    ensures PickOf(c, r, dev, p, now).t == p.onsetT
  {
  }

  /** A pick is accepted if its station accepted it, the station is known, its onset timely, and it is no repeat. */
  ghost function VerdictOf(c: Config, stations: map<Device, Station>, units: map<UnitKey, Unit>, dev: Device,
                           p: StationPick, now: real): Verdict
  {
    if !p.accepted then Rejected
    else if dev !in stations then Unknown
    else if !(now - c.votes.assocWindow <= p.onsetT <= now + 5.0) then Stale
    else if stations[dev].unit in units
            && exists q :: q in units[stations[dev].unit].picks && Duplicates(q, PickOf(c, stations[dev], dev, p, now))
    then Duplicate
    else Accepted
  }

  /** Only an accepted pick changes anything: its own unit's list gains exactly that pick, and stays in order. */
  ghost predicate Filed(c: Config, stations: map<Device, Station>, units: map<UnitKey, Unit>, dev: Device,
                        p: StationPick, now: real, v: Verdict, units2: map<UnitKey, Unit>)
  {
    if v != Accepted then units2 == units
    else
      && dev in stations && stations[dev].unit in units && stations[dev].unit in units2
      && var k := stations[dev].unit;
         GoodPicks(units2[k].picks) && units2 == units[k := units[k].(picks := units2[k].picks)]
         && multiset(units2[k].picks) == multiset(units[k].picks) + multiset{PickOf(c, stations[dev], dev, p, now)}
  }

  lemma Verdicts(c: Config, stations: map<Device, Station>, units: map<UnitKey, Unit>, dev: Device, p: StationPick,
                 now: real)
    requires MembersMatch(stations, units)
    ensures var v := VerdictOf(c, stations, units, dev, p, now);
            (v != Accepted ==> Filed(c, stations, units, dev, p, now, v, units))
            && (!p.accepted ==> v == Rejected)
            && (p.accepted && dev !in stations ==> v == Unknown)
            && (p.accepted && dev in stations && (p.onsetT < now - c.votes.assocWindow || p.onsetT > now + 5.0)
                ==> v == Stale)
            && (p.accepted && dev in stations && now - c.votes.assocWindow <= p.onsetT <= now + 5.0 ==>
                  stations[dev].unit in units
                  && (v == Accepted
                      <==> forall q :: q in units[stations[dev].unit].picks ==>
                          !Duplicates(q, PickOf(c, stations[dev], dev, p, now)))
                  && (v == Accepted || v == Duplicate))
  {
    hide Duplicates, PickOf, GoodPicks;
  }

  lemma FiledPick(c: Config, stations: map<Device, Station>, units: map<UnitKey, Unit>, dev: Device, p: StationPick,
                  now: real, out: seq<UnitPick>)
    requires dev in stations && stations[dev].unit in units && GoodPicks(out)
    requires multiset(out)
             == multiset(units[stations[dev].unit].picks) + multiset{PickOf(c, stations[dev], dev, p, now)}
    ensures var k := stations[dev].unit;
            Filed(c, stations, units, dev, p, now, Accepted, units[k := units[k].(picks := out)])
  {
    hide GoodPicks, PickOf;
  }

  lemma FiledKeeps(g: Geo.Grid, stations: map<Device, Station>, units: map<UnitKey, Unit>, clock: real, k: UnitKey,
                   out: seq<UnitPick>, up: UnitPick)
    requires Geo.ValidGrid(g) && UnitsOk(g, units, clock) && MembersMatch(stations, units) && k in units
    requires GoodPicks(out) && multiset(out) == multiset(units[k].picks) + multiset{up} && up.t <= clock + 5.0
    ensures UnitsOk(g, units[k := units[k].(picks := out)], clock)
            && MembersMatch(stations, units[k := units[k].(picks := out)])
  {
    hide GoodPicks, Geo.ValidGrid, Geo.Center, Geo.Key, Geo.Valid;
    forall p | p in out ensures p.t <= clock + 5.0 {
      assert p in multiset(out);
      assert p in units[k].picks || p == up;
      assert UnitOk(g, k, units[k], clock);
    }
    hide UnitOk;
    UnitChanged(g, units, clock, k, units[k].(picks := out));
  }

  lemma EndedKeeps(g: Geo.Grid, stations: map<Device, Station>, units: map<UnitKey, Unit>, clock: real, k: UnitKey,
                   out: seq<UnitPick>)
    requires Geo.ValidGrid(g) && UnitsOk(g, units, clock) && MembersMatch(stations, units) && k in units
    requires GoodPicks(out) && forall p :: p in out ==> exists q :: q in units[k].picks && q.t == p.t
    ensures UnitsOk(g, units[k := units[k].(picks := out)], clock)
            && MembersMatch(stations, units[k := units[k].(picks := out)])
  {
    hide GoodPicks, Geo.ValidGrid, Geo.Center, Geo.Key, Geo.Valid;
    forall p | p in out ensures p.t <= clock + 5.0 {
      var q :| q in units[k].picks && q.t == p.t;
      assert UnitOk(g, k, units[k], clock);
    }
    hide UnitOk;
    UnitChanged(g, units, clock, k, units[k].(picks := out));
  }

  lemma PicksOf(g: Geo.Grid, units: map<UnitKey, Unit>, clock: real, k: UnitKey)
    requires Geo.ValidGrid(g) && UnitsOk(g, units, clock) && k in units
    ensures GoodPicks(units[k].picks)
  {
    assert UnitOk(g, k, units[k], clock);
  }

  lemma StationHasUnit(stations: map<Device, Station>, units: map<UnitKey, Unit>, dev: Device)
    requires MembersMatch(stations, units) && dev in stations
    ensures stations[dev].unit in units && dev in units[stations[dev].unit].members
  {
  }

  lemma TouchKeeps(stations: map<Device, Station>, units: map<UnitKey, Unit>, dev: Device, now: real)
    requires MembersMatch(stations, units) && dev in stations
    ensures MembersMatch(stations[dev := stations[dev].(lastSeen := now)], units)
  {
  }

  lemma RemoveKeeps(g: Geo.Grid, stations: map<Device, Station>, units: map<UnitKey, Unit>, clock: real, dev: Device)
    requires Geo.ValidGrid(g) && UnitsOk(g, units, clock) && MembersMatch(stations, units) && dev in stations
    ensures var k := stations[dev].unit;
            k in units
            && var u := units[k].(members := units[k].members - {dev}, picks := NotOf(units[k].picks, dev));
               UnitsOk(g, units[k := u], clock) && MembersMatch(stations - {dev}, units[k := u])
  {
    hide GoodPicks, Geo.ValidGrid, Geo.Center, Geo.Key, Geo.Valid, NotOf;
    var k := stations[dev].unit;
    assert UnitOk(g, k, units[k], clock);
    NotOfGood(units[k].picks, dev);
    UnitChanged(g, units, clock, k,
                units[k].(members := units[k].members - {dev}, picks := NotOf(units[k].picks, dev)));
    hide UnitOk, UnitsOk;
  }

  // ---------------------------------------------------------------------
  // Moving between units
  // ---------------------------------------------------------------------

  lemma WithUnitIs(g: Geo.Grid, units: map<UnitKey, Unit>, cell: Geo.Cell)
    requires Geo.ValidGrid(g)
    ensures WithUnit(g, units, cell) == if Geo.Key(cell) in units then units
            else units[Geo.Key(cell) := FreshUnit(g, cell)]
  {
  }

  /** The device is a member of this unit and of no other; nothing else has changed. */
  ghost predicate Moved(a: map<UnitKey, Unit>, b: map<UnitKey, Unit>, key: UnitKey, dev: Device) {
    && (forall k :: k in b <==> k in a) && key in a
    && forall k :: k in a ==> b[k] == a[k].(members := if k == key then a[k].members + {dev} else a[k].members - {dev})
  }

  lemma MovesOnly(stations: map<Device, Station>, a: map<UnitKey, Unit>, dev: Device, key: UnitKey,
                  b: map<UnitKey, Unit>)
    requires MembersMatch(stations, a) && key in a
    requires var left := if dev in stations && stations[dev].unit != key && stations[dev].unit in a
                         then var was := stations[dev].unit; a[was := a[was].(members := a[was].members - {dev})]
                         else a;
             b == left[key := left[key].(members := left[key].members + {dev})]
    ensures Moved(a, b, key, dev)
  {
    forall k | k in a && k != key && !(dev in stations && stations[dev].unit == k)
      ensures a[k].members - {dev} == a[k].members {}
  }

  lemma MoveKeeps(g: Geo.Grid, stations: map<Device, Station>, a: map<UnitKey, Unit>, clock: real, key: UnitKey,
                  dev: Device, b: map<UnitKey, Unit>, r: Station)
    requires Geo.ValidGrid(g) && MembersMatch(stations, a) && UnitsOk(g, a, clock) && Moved(a, b, key, dev)
             && r.unit == key
    ensures MembersMatch(stations[dev := r], b) && UnitsOk(g, b, clock)
  {
    hide GoodPicks, Geo.Key, Geo.Valid, Geo.Center;
    forall k | k in b ensures UnitOk(g, k, b[k], clock) { assert UnitOk(g, k, a[k], clock); }
  }

  // ---------------------------------------------------------------------
  // What stays behind
  // ---------------------------------------------------------------------

  /** No unit holds a pick of the device. */
  ghost predicate NoneOf(units: map<UnitKey, Unit>, dev: Device) {
    forall k, p :: k in units && p in units[k].picks ==> p.dev != dev
  }

  /** Only this unit holds picks of the device. */
  ghost predicate OnlyAt(units: map<UnitKey, Unit>, dev: Device, home: UnitKey) {
    forall k, p :: k in units && p in units[k].picks && p.dev == dev ==> k == home
  }

  /** No unit holds the device's pick of this number. */
  ghost predicate NoPick(units: map<UnitKey, Unit>, dev: Device, number: nat) {
    forall k, p :: k in units && p in units[k].picks ==> !IsPick(p, dev, number)
  }

  /** Only this unit holds the device's pick of this number. */
  ghost predicate PickOnlyAt(units: map<UnitKey, Unit>, dev: Device, number: nat, home: UnitKey) {
    forall k, p :: k in units && p in units[k].picks && IsPick(p, dev, number) ==> k == home
  }

  /** The units without the device, which belongs to `home`. */
  function RemovedFrom(units: map<UnitKey, Unit>, home: UnitKey, dev: Device): map<UnitKey, Unit>
    requires home in units
  {
    units[home := units[home].(members := units[home].members - {dev}, picks := NotOf(units[home].picks, dev))]
  }

  lemma RemovedIs(units: map<UnitKey, Unit>, home: UnitKey, dev: Device)
    requires home in units
    ensures RemovedFrom(units, home, dev)
            == units[home := units[home].(members := units[home].members - {dev},
                                          picks := NotOf(units[home].picks, dev))]
  {
  }

  /** Removing a device removes its picks exactly when no other unit than its own holds any. */
  lemma RemovedExactly(units: map<UnitKey, Unit>, home: UnitKey, dev: Device)
    requires home in units
    ensures NoneOf(RemovedFrom(units, home, dev), dev) <==> OnlyAt(units, dev, home)
  {
    var after := RemovedFrom(units, home, dev);
    hide NotOf;
    assert forall k :: k in units && k != home ==> after[k] == units[k];
  }

  lemma WithoutGone(ps: seq<UnitPick>, i: nat, dev: Device, number: nat)
    requires NoRepeats(ps) && i < |ps| && IsPick(ps[i], dev, number)
    ensures forall p :: p in Without(ps, i) ==> p in ps && !IsPick(p, dev, number)
  {
    var out := Without(ps, i);
    forall p | p in out ensures p in ps && !IsPick(p, dev, number) {
      var k :| 0 <= k < |out| && out[k] == p;
      var m := if k < i then k else k + 1;
      assert p == ps[m] && m != i;
    }
  }

  /** What is left once a pick has been taken out holds it no more. */
  lemma EndedGone(ps: seq<UnitPick>, dev: Device, number: nat, pga: real, out: seq<UnitPick>, removed: bool)
    requires GoodPicks(ps) && Ended(ps, dev, number, false, pga, out, removed)
    ensures forall p :: p in out ==> p in ps && !IsPick(p, dev, number)
  {
    hide NoRepeats, InOrder, Without, IsPick;
    if exists i :: 0 <= i < |ps| && IsPick(ps[i], dev, number) {
      var i :| 0 <= i < |ps| && IsPick(ps[i], dev, number) && out == Without(ps, i);
      WithoutGone(ps, i, dev, number);
    }
  }

  /** A withdrawn pick is gone exactly when no other unit than the device's own holds it. */
  lemma WithdrawnExactly(units: map<UnitKey, Unit>, home: UnitKey, dev: Device, number: nat, pga: real,
                         out: seq<UnitPick>, removed: bool)
    requires home in units && GoodPicks(units[home].picks)
    requires Ended(units[home].picks, dev, number, false, pga, out, removed)
    ensures NoPick(units[home := units[home].(picks := out)], dev, number) <==> PickOnlyAt(units, dev, number, home)
  {
    hide GoodPicks, IsPick;
    var after := units[home := units[home].(picks := out)];
    EndedGone(units[home].picks, dev, number, pga, out, removed);
    hide Ended;
    assert forall k :: k in units && k != home ==> after[k] == units[k];
  }

  /** After a move a device's new unit alone holds its picks exactly if it has not moved at all, or has none. */
  lemma MovedExactly(g: Geo.Grid, units: map<UnitKey, Unit>, dev: Device, home: UnitKey, cell: Geo.Cell,
                     moved: map<UnitKey, Unit>)
    requires Geo.ValidGrid(g) && OnlyAt(units, dev, home) && Moved(WithUnit(g, units, cell), moved, Geo.Key(cell), dev)
    ensures OnlyAt(moved, dev, Geo.Key(cell)) <==> Geo.Key(cell) == home || NoneOf(units, dev)
  {
    hide Geo.ValidGrid, Geo.Key, Geo.Center;
    assert forall k :: k in units ==> k in moved && moved[k].picks == units[k].picks;
    assert forall k :: k in moved && k !in units ==> moved[k].picks == [];
  }

  /** Filing a pick keeps a device's picks together. */
  lemma FiledTogether(c: Config, stations: map<Device, Station>, units: map<UnitKey, Unit>, dev: Device, p: StationPick,
                      now: real, v: Verdict, filed: map<UnitKey, Unit>, other: Device, home: UnitKey)
    requires OnlyAt(units, other, home) && Filed(c, stations, units, dev, p, now, v, filed)
    requires dev == other && dev in stations ==> stations[dev].unit == home
    ensures OnlyAt(filed, other, home)
  {
    hide GoodPicks;
    if v == Accepted {
      var k, up := stations[dev].unit, PickOf(c, stations[dev], dev, p, now);
      forall q | q in filed[k].picks ensures q in units[k].picks || q == up {
        assert q in multiset(filed[k].picks);
      }
    }
  }

  /** A filed pick stays in the unit it was filed in when its device moves to another. */
  lemma StaysBehind(c: Config, stations: map<Device, Station>, units: map<UnitKey, Unit>, dev: Device, p: StationPick,
                    now: real, filed: map<UnitKey, Unit>, cell: Geo.Cell, moved: map<UnitKey, Unit>)
    requires Geo.ValidGrid(c.grid) && Filed(c, stations, units, dev, p, now, Accepted, filed)
    requires stations[dev].unit != Geo.Key(cell) && Moved(WithUnit(c.grid, filed, cell), moved, Geo.Key(cell), dev)
    ensures var k := stations[dev].unit;
            k in moved && PickOf(c, stations[dev], dev, p, now) in moved[k].picks
  {
    hide GoodPicks, Geo.ValidGrid, Geo.Key;
    var k, up := stations[dev].unit, PickOf(c, stations[dev], dev, p, now);
    assert up in multiset(filed[k].picks);
    assert moved[k].picks == filed[k].picks;
  }

  /**
   The failing runs: a pick is accepted, its device moves to another unit, and then the device is removed, or the pick
   is withdrawn. Either way the pick stays where it was filed. If the new unit has no pick of the device, the withdrawal
   finds nothing, and the same pick is accepted once more.
   */
  lemma LeftBehind(c: Config, stations: map<Device, Station>, units: map<UnitKey, Unit>, dev: Device, p: StationPick,
                   now: real, filed: map<UnitKey, Unit>, cell: Geo.Cell, moved: map<UnitKey, Unit>, r: Station,
                   pga: real, out: seq<UnitPick>, removed: bool)
    requires Geo.ValidGrid(c.grid) && VerdictOf(c, stations, units, dev, p, now) == Accepted
    requires Filed(c, stations, units, dev, p, now, Accepted, filed)
    requires stations[dev].unit != Geo.Key(cell) && Moved(WithUnit(c.grid, filed, cell), moved, Geo.Key(cell), dev)
    requires r.unit == Geo.Key(cell) && Ended(moved[r.unit].picks, dev, p.seqNo, false, pga, out, removed)
    ensures !NoneOf(RemovedFrom(moved, r.unit, dev), dev)
    ensures !NoPick(moved[r.unit := moved[r.unit].(picks := out)], dev, p.seqNo)
    ensures (forall q :: q in moved[r.unit].picks ==> q.dev != dev) ==>
              !removed && out == moved[r.unit].picks
              && VerdictOf(c, stations[dev := r], moved, dev, p, now) == Accepted
  {
    StaysBehind(c, stations, units, dev, p, now, filed, cell, moved);
    hide GoodPicks, Geo.ValidGrid, Geo.Key, Filed, Moved, WithUnit, NotOf;
    var k, up := stations[dev].unit, PickOf(c, stations[dev], dev, p, now);
    var gone, ended := RemovedFrom(moved, r.unit, dev), moved[r.unit := moved[r.unit].(picks := out)];
    assert up in gone[k].picks && up.dev == dev;
    assert up in ended[k].picks && IsPick(up, dev, p.seqNo);
  }
}
