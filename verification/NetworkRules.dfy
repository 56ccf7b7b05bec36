/**
 The engine's rules on values: consumed evidence, expiry, and what a quiet stretch can change.
 */
module NetworkRules {
  import opened Basics
  import opened Votes
  import opened Units
  import opened Roster
  import opened Registry
  import opened Levels
  import opened Events
  import opened Book
  import A = Association
  import E = Evidence
  import J = Judging
  import L = Linking
  import Geo
  import S = Sorting

  datatype Config = Config(votes: VoteRules, judge: J.Tuning, evidence: E.Tuning, grid: Geo.Grid, establishedAge: real,
                           establishedStream: real, before: (VoteKey, VoteKey) -> bool)

  ghost predicate ValidConfig(c: Config) {
    && Votes.ValidRules(c.votes) && E.ValidTuning(c.evidence) && Geo.ValidGrid(c.grid)
    // keys are compared as texts, and there is one association window
    && S.TotalPreorder(c.before)
    && c.evidence.assocWindow == c.judge.assocWindow == c.votes.assocWindow
  }

  function TickRulesOf(c: Config): TickRules { TickRules(c.votes, c.evidence.timeout) }

  // ---------------------------------------------------------------------
  // Consumed evidence
  // ---------------------------------------------------------------------

  /** Events hold no key from the far future. */
  ghost predicate KeysPast(evs: seq<Event>, clock: real) {
    forall i, k :: 0 <= i < |evs| && k in evs[i].voteKeys ==> k.second as real <= clock + 5.0
  }

  /** A key is consumed no earlier than five seconds before its own second. */
  ghost predicate ConsumedOk(consumed: map<VoteKey, real>) {
    forall k :: k in consumed ==> consumed[k] >= k.second as real - 5.0
  }

  /** A key that was ever consumed is still marked, or too old for any pick still held to produce it again. */
  ghost predicate EverOk(c: VoteRules, ever: set<VoteKey>, consumed: map<VoteKey, real>, clock: real) {
    && (forall k :: k in consumed ==> k in ever)
    && forall k :: k in ever ==> k in consumed || k.second as real + 1.0 <= Horizon(c, clock)
  }

  function Expired(c: VoteRules, now: real, t: real): bool { t < now - 3.0 * c.assocWindow }

  /** The marks that have not expired. */
  function Unexpired(c: VoteRules, consumed: map<VoteKey, real>, now: real): map<VoteKey, real> {
    map k | k in consumed && !Expired(c, now, consumed[k]) :: consumed[k]
  }

  /** An expired mark belongs to a key no pick can produce any more. */
  lemma ExpiryIsSafe(c: VoteRules, ever: set<VoteKey>, consumed: map<VoteKey, real>, clock: real, now: real)
    requires Votes.ValidRules(c) && ConsumedOk(consumed) && EverOk(c, ever, consumed, clock) && clock <= now
    ensures ConsumedOk(Unexpired(c, consumed, now)) && EverOk(c, ever, Unexpired(c, consumed, now), now)
  {
  }

  lemma EverLater(c: VoteRules, ever: set<VoteKey>, consumed: map<VoteKey, real>, clock: real, now: real)
    requires EverOk(c, ever, consumed, clock) && clock <= now
    ensures EverOk(c, ever, consumed, now)
  {
  }

  /** Marks the keys as consumed now. */
  function Consume(consumed: map<VoteKey, real>, keys: set<VoteKey>, now: real): map<VoteKey, real> {
    consumed + map k | k in keys :: now
  }

  lemma ConsumeOk(c: VoteRules, ever: set<VoteKey>, consumed: map<VoteKey, real>, keys: set<VoteKey>, clock: real,
                  now: real)
    requires ConsumedOk(consumed) && EverOk(c, ever, consumed, clock)
    requires forall k :: k in keys ==> k.second as real <= now + 5.0
    ensures ConsumedOk(Consume(consumed, keys, now)) && EverOk(c, ever + keys, Consume(consumed, keys, now), clock)
  {
  }

  // ---------------------------------------------------------------------
  // Small parts
  // ---------------------------------------------------------------------

  /** Earlier votes first; ties by key. */
  predicate VoteBefore(c: Config, a: Vote, b: Vote) { a.t < b.t || (a.t == b.t && c.before(a.key, b.key)) }

  /** Every vote stands before the ones behind it. */
  ghost predicate InTimeOrder(c: Config, vs: seq<Vote>) { S.SortedBy(vs, (a: Vote, b: Vote) => VoteBefore(c, a, b)) }

  lemma TimeOrdered(c: Config, vs: seq<Vote>)
    requires S.TotalPreorder(c.before)
    ensures InTimeOrder(c, S.Sort(vs, (a: Vote, b: Vote) => VoteBefore(c, a, b)))
  {
    S.SortSorted(vs, (a: Vote, b: Vote) => VoteBefore(c, a, b));
  }

  /** Larger clusters first. */
  predicate Larger(a: A.Cluster, b: A.Cluster) { |a.votes| >= |b.votes| }

  /** The time a tick credits: none before the first tick, ten seconds at most. */
  function Step(lastTick: real, now: real): real {
    if lastTick == 0.0 || now - lastTick < 0.0 then 0.0 else Min(now - lastTick, 10.0)
  }

  predicate QuietEvent(c: J.Tuning, ev: Event, now: real) {
    now - ev.lastSupport >= c.quietSec && now - ev.originT >= c.minAgeSec
  }

  predicate StillRecent(c: VoteRules, ev: Event, now: real) { now - ev.closedAt < 2.0 * c.assocWindow }

  function Lately(c: VoteRules, evs: seq<Event>, now: real): (r: seq<Event>)
    ensures forall e :: e in r ==> e in evs
  {
    if evs == [] then []
    else
      var e := evs[|evs| - 1];
      if StillRecent(c, e, now) then Lately(c, evs[..|evs| - 1], now) + [e] else Lately(c, evs[..|evs| - 1], now)
  }

  ghost predicate AllIn(evs: seq<Event>, all: seq<Event>) { forall i :: 0 <= i < |evs| ==> evs[i] in all }

  datatype StationPick = StationPick(seqNo: nat, accepted: bool, onsetT: real, sigmaT: real, pga: real)

  datatype UnitState = UnitState(key: UnitKey, votes: real, exposure: real)

  /** What a quiet stretch can change. */
  datatype Snapshot = Snapshot(units: map<UnitKey, Unit>, consumed: map<VoteKey, real>, recent: seq<Event>,
                               lastTick: real)

  /** One tick of an idle engine. */
  ghost function IdleTick(c: Config, stations: map<Device, Station>, s: Snapshot, now: real): Snapshot {
    Snapshot(IdleUnits(TickRulesOf(c), stations, s.units, Step(s.lastTick, now), now),
             Unexpired(c.votes, s.consumed, now), Lately(c.votes, s.recent, now), now)
  }

  function ListeningAt(c: Config, stations: map<Device, Station>, u: Unit, now: real): nat {
    |Listeners(stations, u.members, now, c.evidence.timeout)|
  }

  function CreditOne(c: Config, stations: map<Device, Station>, u: Unit, dt: real, now: real): Unit {
    if ListeningAt(c, stations, u, now) > 0 then u.(exposure := u.exposure + dt) else u
  }

  /** Exposure credited in one go. */
  function Credited(c: Config, stations: map<Device, Station>, units: map<UnitKey, Unit>, dt: real,
                    now: real): map<UnitKey, Unit>
  {
    map k | k in units :: CreditOne(c, stations, units[k], dt, now)
  }

  function Advanced(c: Config, stations: map<Device, Station>, s: Snapshot, now: real): Snapshot {
    if s.lastTick > 0.0 && now > s.lastTick
    then s.(units := Credited(c, stations, s.units, now - s.lastTick, now), lastTick := now)
    else s.(lastTick := now)
  }

  /** No pick could form a vote at any time after `now`. */
  ghost predicate AllPast(c: Config, units: map<UnitKey, Unit>, now: real) {
    forall k, p :: k in units && p in units[k].picks ==> p.t <= Horizon(c.votes, now)
  }

  /** The units ks have been credited. */
  ghost predicate CreditedTo(c: Config, stations: map<Device, Station>, units0: map<UnitKey, Unit>, dt: real, now: real,
                             ks: seq<UnitKey>, units: map<UnitKey, Unit>)
  {
    && (forall k :: k in units <==> k in units0)
    && forall k :: k in units0 ==> units[k] == if k in ks then CreditOne(c, stations, units0[k], dt, now) else units0[k]
  }

  lemma CreditNext(c: Config, stations: map<Device, Station>, units0: map<UnitKey, Unit>, dt: real, now: real,
                   ks: seq<UnitKey>, units: map<UnitKey, Unit>, k: UnitKey)
    requires CreditedTo(c, stations, units0, dt, now, ks, units) && k in units0 && k !in ks
    ensures k in units
    ensures CreditedTo(c, stations, units0, dt, now, ks + [k],
                       if ListeningAt(c, stations, units[k], now) > 0
                       then units[k := units[k].(exposure := units[k].exposure + dt)] else units)
  {
    hide ListeningAt;
  }

  lemma CreditDone(c: Config, stations: map<Device, Station>, units0: map<UnitKey, Unit>, dt: real, now: real,
                   ks: seq<UnitKey>, units: map<UnitKey, Unit>)
    requires CreditedTo(c, stations, units0, dt, now, ks, units) && Lists(ks, units0.Keys)
    ensures units == Credited(c, stations, units0, dt, now)
  {
    hide CreditOne;
  }

  /** Credits every unit with a listening station. */
  method CreditAll(c: Config, stations: map<Device, Station>, units0: map<UnitKey, Unit>, dt: real, now: real)
    returns (units: map<UnitKey, Unit>)
    ensures units == Credited(c, stations, units0, dt, now)
  {
    hide ListeningAt, Credited, CreditOne;
    units := units0;
    var keys := Enumerate(units0.Keys);
    assert keys[..0] == [];
    assert CreditedTo(c, stations, units0, dt, now, [], units);
    hide CreditedTo;
    for i := 0 to |keys|
      invariant CreditedTo(c, stations, units0, dt, now, keys[..i], units)
    {
      var k := keys[i];
      assert k in keys && k !in keys[..i];
      assert keys[..i + 1] == keys[..i] + [k];
      CreditNext(c, stations, units0, dt, now, keys[..i], units, k);
      if ListeningAt(c, stations, units[k], now) > 0 {
        units := units[k := units[k].(exposure := units[k].exposure + dt)];
      }
    }
    assert keys[..|keys|] == keys;
    CreditDone(c, stations, units0, dt, now, keys, units);
  }

  /** Whether every unit's last pick is behind the horizon; the lists being in order, that is every pick. */
  method NoRecentPicks(c: Config, g: Geo.Grid, units: map<UnitKey, Unit>, ghost clock: real, now: real)
    returns (b: bool)
    requires Geo.ValidGrid(g) && UnitsOk(g, units, clock)
    ensures b <==> AllPast(c, units, now)
  {
    hide UnitsOk, GoodPicks, Geo.ValidGrid;
    var keys := Enumerate(units.Keys);
    for i := 0 to |keys|
      invariant forall m, p :: 0 <= m < i && p in units[keys[m]].picks ==> p.t <= Horizon(c.votes, now)
    {
      var k := keys[i];
      assert k in keys;
      var n := |units[k].picks|;
      InOrderPicks(g, units, clock, k);
      if n > 0 && units[k].picks[n - 1].t > Horizon(c.votes, now) {
        assert units[k].picks[n - 1] in units[k].picks;
        return false;
      }
    }
    forall k, p | k in units && p in units[k].picks ensures p.t <= Horizon(c.votes, now) {
      assert k in keys;
      var m :| 0 <= m < |keys| && keys[m] == k;
    }
    return true;
  }

  lemma InOrderPicks(g: Geo.Grid, units: map<UnitKey, Unit>, clock: real, k: UnitKey)
    requires Geo.ValidGrid(g) && UnitsOk(g, units, clock) && k in units
    ensures var ps := units[k].picks; forall p :: p in ps ==> p.t <= ps[|ps| - 1].t
  {
    assert UnitOk(g, k, units[k], clock);
    var ps := units[k].picks;
    forall p | p in ps ensures p.t <= ps[|ps| - 1].t {
      var i :| 0 <= i < |ps| && ps[i] == p;
    }
  }

  lemma PastIsQuiet(c: Config, units: map<UnitKey, Unit>, t: real, now: real)
    requires AllPast(c, units, t) && t < now
    ensures forall k :: k in units ==> Quiet(c.votes, units[k], now)
  {
  }
}
