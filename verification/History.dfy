/** The learned history of the units: exported, and restored into another engine under the same keys. */
module History {
  import opened Votes
  import opened Units
  import opened Roster
  import opened Registry
  import opened NetworkRules
  import Geo

  predicate HasHistory(u: Unit) { u.exposure > 0.0 || u.votes > 0.0 }

  /** One state for each unit with a history, and no other. */
  ghost predicate ExportOf(units: map<UnitKey, Unit>, states: seq<UnitState>) {
    && (forall i :: 0 <= i < |states| ==>
          states[i].key in units && HasHistory(units[states[i].key])
          && states[i].votes == units[states[i].key].votes && states[i].exposure == units[states[i].key].exposure)
    && (forall i, j :: 0 <= i < j < |states| ==> states[i].key != states[j].key)
    && forall k :: k in units && HasHistory(units[k]) ==> exists i :: 0 <= i < |states| && states[i].key == k
  }

  /** The states of those units among ks that have a history. */
  ghost predicate ExportedTo(units: map<UnitKey, Unit>, ks: seq<UnitKey>, states: seq<UnitState>) {
    && (forall i :: 0 <= i < |states| ==>
          states[i].key in ks && states[i].key in units && states[i] == StateOf(states[i].key, units[states[i].key])
          && HasHistory(units[states[i].key]))
    && (forall i, j :: 0 <= i < j < |states| ==> states[i].key != states[j].key)
    && (forall k :: k in ks && k in units && HasHistory(units[k]) ==> Holds(states, k))
  }

  function StateOf(k: UnitKey, u: Unit): UnitState { UnitState(k, u.votes, u.exposure) }

  ghost predicate Holds(states: seq<UnitState>, k: UnitKey) { exists i :: 0 <= i < |states| && states[i].key == k }

  lemma ExportNext(units: map<UnitKey, Unit>, ks: seq<UnitKey>, states: seq<UnitState>, k: UnitKey)
    requires ExportedTo(units, ks, states) && k in units && k !in ks
    ensures ExportedTo(units, ks + [k], if HasHistory(units[k]) then states + [StateOf(k, units[k])] else states)
  {
    hide HasHistory;
    if HasHistory(units[k]) {
      var more := states + [StateOf(k, units[k])];
      assert more[|states|].key == k;
      forall x | x in ks && x in units && HasHistory(units[x]) ensures Holds(more, x) {
        assert Holds(states, x);
        var i :| 0 <= i < |states| && states[i].key == x;
        assert more[i].key == x;
      }
    }
  }

  lemma ExportDone(units: map<UnitKey, Unit>, ks: seq<UnitKey>, states: seq<UnitState>)
    requires Lists(ks, units.Keys) && ExportedTo(units, ks, states)
    ensures ExportOf(units, states)
  {
    hide HasHistory;
    forall k | k in units && HasHistory(units[k]) ensures exists i :: 0 <= i < |states| && states[i].key == k {
      assert k in ks;
      assert Holds(states, k);
    }
  }

  method ExportStates(units: map<UnitKey, Unit>) returns (states: seq<UnitState>)
    ensures ExportOf(units, states)
  {
    hide ExportedTo, ExportOf;
    var keys := Enumerate(units.Keys);
    states := [];
    assert keys[..0] == [];
    assert ExportedTo(units, [], []) by { NothingExported(units); }
    for i := 0 to |keys|
      invariant ExportedTo(units, keys[..i], states)
    {
      var k := keys[i];
      assert k in keys && k !in keys[..i];
      assert keys[..i + 1] == keys[..i] + [k];
      ExportNext(units, keys[..i], states, k);
      var u := units[k];
      if u.exposure > 0.0 || u.votes > 0.0 {
        states := states + [UnitState(k, u.votes, u.exposure)];
      }
    }
    assert keys[..|keys|] == keys;
    ExportDone(units, keys, states);
  }

  lemma NothingExported(units: map<UnitKey, Unit>)
    ensures ExportedTo(units, [], [])
  {
  }

  /** The cell in which a state is restored: the one around the centre of the cell its key names. */
  function HomeOf(g: Geo.Grid, k: UnitKey): (c: Geo.Cell)
    requires Geo.ValidGrid(g)
    ensures Geo.Valid(g, c)
  {
    var at := Geo.Center(g, Geo.CellFromKey(k));
    Geo.CellOf(g, at.0, at.1)
  }

  function ImportOne(g: Geo.Grid, units: map<UnitKey, Unit>, s: UnitState): map<UnitKey, Unit>
    requires Geo.ValidGrid(g)
  {
    var home := HomeOf(g, s.key);
    var w := WithUnit(g, units, home);
    w[Geo.Key(home) := w[Geo.Key(home)].(votes := s.votes, exposure := s.exposure)]
  }

  function ImportAll(g: Geo.Grid, units: map<UnitKey, Unit>, states: seq<UnitState>): map<UnitKey, Unit>
    requires Geo.ValidGrid(g)
  {
    if states == [] then units else ImportOne(g, ImportAll(g, units, states[..|states| - 1]), states[|states| - 1])
  }

  lemma ImportOneKeeps(g: Geo.Grid, stations: map<Device, Station>, units: map<UnitKey, Unit>, s: UnitState,
                       clock: real)
    requires Geo.ValidGrid(g) && UnitsOk(g, units, clock) && MembersMatch(stations, units)
    ensures UnitsOk(g, ImportOne(g, units, s), clock) && MembersMatch(stations, ImportOne(g, units, s))
  {
    hide Geo.ValidGrid, Geo.Key, Geo.Valid, Geo.Center, HomeOf, WithUnit, UnitOk, GoodPicks;
    var home := HomeOf(g, s.key);
    var w := WithUnit(g, units, home);
    WithUnitOk(g, stations, units, home, clock);
    var k := Geo.Key(home);
    assert k in w by { WithUnitHas(g, units, home); }
    HeldPicks(g, w, clock, k);
    UnitChanged(g, w, clock, k, w[k].(votes := s.votes, exposure := s.exposure));
  }

  lemma WithUnitHas(g: Geo.Grid, units: map<UnitKey, Unit>, cell: Geo.Cell)
    requires Geo.ValidGrid(g)
    ensures Geo.Key(cell) in WithUnit(g, units, cell)
  {
  }

  lemma HeldPicks(g: Geo.Grid, units: map<UnitKey, Unit>, clock: real, k: UnitKey)
    requires Geo.ValidGrid(g) && UnitsOk(g, units, clock) && k in units
    ensures GoodPicks(units[k].picks) && forall p :: p in units[k].picks ==> p.t <= clock + 5.0
  {
    assert UnitOk(g, k, units[k], clock);
  }

  /** Restores the states one by one. */
  method ImportStates(g: Geo.Grid, ghost stations: map<Device, Station>, units0: map<UnitKey, Unit>,
                      states: seq<UnitState>, ghost clock: real)
    returns (units: map<UnitKey, Unit>)
    requires Geo.ValidGrid(g) && UnitsOk(g, units0, clock) && MembersMatch(stations, units0)
    ensures units == ImportAll(g, units0, states) && UnitsOk(g, units, clock) && MembersMatch(stations, units)
  {
    hide UnitsOk, MembersMatch, Geo.Key, Geo.Center, Geo.CellOf, Geo.CellFromKey;
    units := units0;
    for i := 0 to |states|
      invariant units == ImportAll(g, units0, states[..i]) && UnitsOk(g, units, clock) && MembersMatch(stations, units)
    {
      assert states[..i + 1][..i] == states[..i];
      ImportOneKeeps(g, stations, units, states[i], clock);
      var at := Geo.Center(g, Geo.CellFromKey(states[i].key));
      var cell := Geo.CellOf(g, at.0, at.1);
      var k := Geo.Key(cell);
      if k !in units { units := units[k := FreshUnit(g, cell)]; }
      units := units[k := units[k].(votes := states[i].votes, exposure := states[i].exposure)];
    }
    assert states[..|states|] == states;
  }

  /** A state of a unit in order comes home to the unit's own cell and key. */
  lemma ComesHome(g: Geo.Grid, k: UnitKey, u: Unit, clock: real)
    requires Geo.ValidGrid(g) && UnitOk(g, k, u, clock) && (u.cell.row < Geo.Rows(g) - 1 || Geo.LastRowKept(g))
    ensures HomeOf(g, k) == u.cell && Geo.Key(HomeOf(g, k)) == k
  {
    hide GoodPicks, Geo.Center, Geo.Rows, Geo.Valid, Geo.Key, Geo.CellFromKey, Geo.LastRowKept, Geo.CellOf;
    Geo.KeyRoundTrip(u.cell, k);
    Geo.CenterRoundTrip(g, u.cell);
  }

  /** What a fresh engine holds after importing: exactly the exported units, empty but for their histories. */
  ghost predicate RestoredTo(g: Geo.Grid, units: map<UnitKey, Unit>, states: seq<UnitState>, r: map<UnitKey, Unit>)
    requires Geo.ValidGrid(g)
  {
    && (forall k :: k in r <==> exists i :: 0 <= i < |states| && states[i].key == k)
    && forall k :: k in r ==>
         k in units && r[k] == FreshUnit(g, units[k].cell).(votes := units[k].votes, exposure := units[k].exposure)
  }

  ghost predicate Homely(g: Geo.Grid, units: map<UnitKey, Unit>)
    requires Geo.ValidGrid(g)
  {
    forall k :: k in units ==> HomeOf(g, k) == units[k].cell && Geo.Key(units[k].cell) == k
  }

  lemma {:induction false} RestorePrefix(g: Geo.Grid, units: map<UnitKey, Unit>, states: seq<UnitState>)
    requires Geo.ValidGrid(g) && Homely(g, units)
    requires forall i :: 0 <= i < |states| ==>
               states[i].key in units && states[i].votes == units[states[i].key].votes
               && states[i].exposure == units[states[i].key].exposure
    ensures RestoredTo(g, units, states, ImportAll(g, map[], states))
  {
    hide Geo.ValidGrid, Geo.Key, Geo.Center, HomeOf;
    if states != [] {
      var n := |states| - 1;
      RestorePrefix(g, units, states[..n]);
      RestoreOne(g, units, states, ImportAll(g, map[], states[..n]));
    }
  }

  lemma RestoreOne(g: Geo.Grid, units: map<UnitKey, Unit>, states: seq<UnitState>, r: map<UnitKey, Unit>)
    requires Geo.ValidGrid(g) && Homely(g, units) && states != []
    requires var s := states[|states| - 1];
             s.key in units && s.votes == units[s.key].votes && s.exposure == units[s.key].exposure
    requires RestoredTo(g, units, states[..|states| - 1], r)
    ensures RestoredTo(g, units, states, ImportOne(g, r, states[|states| - 1]))
  {
    hide Geo.ValidGrid, Geo.Center, HomeOf, Geo.Key;
    var n := |states| - 1;
    var s := states[n];
    var t := ImportOne(g, r, s);
    forall k ensures k in t <==> exists i :: 0 <= i < |states| && states[i].key == k {
      if k in r {
        var i :| 0 <= i < n && states[..n][i].key == k;
        assert states[i].key == k;
      }
      if k == s.key { assert states[n].key == k; }
      if i :| 0 <= i < |states| && states[i].key == k {
        if i < n { assert states[..n][i].key == k; }
      }
    }
  }

  /**
   The history of a registry in order is restored under the same keys, with the same votes and exposure, by a fresh
   engine on the same grid, provided the grid's last row keeps its own centre.
   */
  lemma Restored(g: Geo.Grid, units: map<UnitKey, Unit>, states: seq<UnitState>, clock: real)
    requires Geo.ValidGrid(g) && UnitsOk(g, units, clock) && ExportOf(units, states) && Geo.LastRowKept(g)
    ensures var r := ImportAll(g, map[], states);
            (forall k :: k in r <==> k in units && HasHistory(units[k]))
            && forall k :: k in r ==> r[k].key == k && r[k].cell == units[k].cell
                                      && r[k].votes == units[k].votes && r[k].exposure == units[k].exposure
    ensures ExportOf(ImportAll(g, map[], states), states)
  {
    hide Geo.ValidGrid, Geo.Center, HomeOf, Geo.Key, Geo.LastRowKept, Geo.Valid, Geo.Rows, GoodPicks, ImportAll;
    forall k | k in units ensures HomeOf(g, k) == units[k].cell && Geo.Key(units[k].cell) == k {
      assert UnitOk(g, k, units[k], clock);
      ComesHome(g, k, units[k], clock);
    }
    RestorePrefix(g, units, states);
    var r := ImportAll(g, map[], states);
    hide UnitOk;
    forall k | k in r ensures k in units && HasHistory(units[k]) {
      var i :| 0 <= i < |states| && states[i].key == k;
    }
  }
}
