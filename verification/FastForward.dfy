/** Skipping a quiet stretch: advancing the clock once and then ticking is the same as ticking all the way. */
module FastForward {
  import opened Votes
  import opened Units
  import opened Roster
  import opened Registry
  import opened Events
  import opened NetworkRules
  import Geo

  /** The idle ticks at the given times, one after another. */
  ghost function IdleTicks(c: Config, stations: map<Device, Station>, s: Snapshot, times: seq<real>): Snapshot {
    if times == [] then s
    else IdleTick(c, stations, IdleTicks(c, stations, s, times[..|times| - 1]), times[|times| - 1])
  }

  function Previous(t: real, times: seq<real>, i: nat): real
    requires i <= |times|
  {
    if i == 0 then t else times[i - 1]
  }

  /** The times follow t in order, in steps of at most ten seconds. */
  ghost predicate Steps(t: real, times: seq<real>) {
    forall i :: 0 <= i < |times| ==> Previous(t, times, i) < times[i] <= Previous(t, times, i) + 10.0
  }

  /** Whether any station of the unit listens does not change between the given times. */
  ghost predicate SteadyUnit(c: Config, stations: map<Device, Station>, u: Unit, times: seq<real>) {
    forall i, j :: 0 <= i < |times| && 0 <= j < |times| ==>
      (ListeningAt(c, stations, u, times[i]) > 0 <==> ListeningAt(c, stations, u, times[j]) > 0)
  }

  ghost predicate Steady(c: Config, stations: map<Device, Station>, units: map<UnitKey, Unit>, times: seq<real>) {
    forall k :: k in units ==> SteadyUnit(c, stations, units[k], times)
  }

  // ---------------------------------------------------------------------
  // Forgetting
  // ---------------------------------------------------------------------

  /** The unit without its picks and with what it remembers after the horizon. */
  function Forgotten(c: VoteRules, u: Unit, now: real): Unit {
    u.(picks := [], seen := Remembered(u.seen, Horizon(c, now)))
  }

  function ForgetUnits(c: VoteRules, units: map<UnitKey, Unit>, now: real): map<UnitKey, Unit> {
    map k | k in units && !Spent(Forgotten(c, units[k], now)) :: Forgotten(c, units[k], now)
  }

  /** The state after an idle tick that credits nothing more: what is too old is gone. */
  function Forget(c: Config, s: Snapshot): Snapshot {
    Snapshot(ForgetUnits(c.votes, s.units, s.lastTick), Unexpired(c.votes, s.consumed, s.lastTick),
             Lately(c.votes, s.recent, s.lastTick), s.lastTick)
  }

  lemma RememberedTwice(seen: map<VoteKey, real>, a: real, b: real)
    requires a <= b
    ensures Remembered(Remembered(seen, a), b) == Remembered(seen, b)
  {
  }

  lemma UnexpiredTwice(c: VoteRules, consumed: map<VoteKey, real>, a: real, b: real)
    requires a <= b
    ensures Unexpired(c, Unexpired(c, consumed, a), b) == Unexpired(c, consumed, b)
  {
  }

  lemma {:induction false} LatelyTwice(c: VoteRules, evs: seq<Event>, a: real, b: real)
    requires a <= b
    ensures Lately(c, Lately(c, evs, a), b) == Lately(c, evs, b)
  {
    if evs != [] {
      var n := |evs| - 1;
      LatelyTwice(c, evs[..n], a, b);
      if StillRecent(c, evs[n], a) {
        assert (Lately(c, evs[..n], a) + [evs[n]])[..|Lately(c, evs[..n], a)|] == Lately(c, evs[..n], a);
      }
    }
  }

  /** A unit nobody is in has nobody listening. */
  lemma EmptyUnit(c: Config, stations: map<Device, Station>, u: Unit, now: real)
    requires u.members == {}
    ensures ListeningAt(c, stations, u, now) == 0
  {
    assert Listeners(stations, u.members, now, c.evidence.timeout) == {};
  }

  /** Forgetting first makes no difference to a later idle tick. */
  lemma IdleOneForgotten(c: Config, stations: map<Device, Station>, u: Unit, a: real, dt: real, now: real)
    requires a <= now && dt >= 0.0
    ensures IdleOne(TickRulesOf(c), stations, Forgotten(c.votes, u, a), dt, now)
            == IdleOne(TickRulesOf(c), stations, u, dt, now)
    ensures Spent(Forgotten(c.votes, u, a)) ==> Spent(IdleOne(TickRulesOf(c), stations, u, dt, now))
  {
    RememberedTwice(u.seen, Horizon(c.votes, a), Horizon(c.votes, now));
    if u.members == {} { EmptyUnit(c, stations, u, now); }
    hide Remembered;
  }

  lemma IdleUnitsForgotten(c: Config, stations: map<Device, Station>, units: map<UnitKey, Unit>, a: real, dt: real,
                           now: real)
    requires a <= now && dt >= 0.0
    ensures IdleUnits(TickRulesOf(c), stations, ForgetUnits(c.votes, units, a), dt, now)
            == IdleUnits(TickRulesOf(c), stations, units, dt, now)
  {
    hide IdleOne, Forgotten, Spent;
    forall k | k in units
      ensures IdleOne(TickRulesOf(c), stations, Forgotten(c.votes, units[k], a), dt, now)
              == IdleOne(TickRulesOf(c), stations, units[k], dt, now)
      ensures Spent(Forgotten(c.votes, units[k], a)) ==> Spent(IdleOne(TickRulesOf(c), stations, units[k], dt, now))
    {
      IdleOneForgotten(c, stations, units[k], a, dt, now);
    }
  }

  lemma IdleAfterForget(c: Config, stations: map<Device, Station>, s: Snapshot, now: real)
    requires s.lastTick <= now
    ensures IdleTick(c, stations, Forget(c, s), now) == IdleTick(c, stations, s, now)
  {
    hide ForgetUnits, IdleUnits, Unexpired, Lately;
    UnexpiredTwice(c.votes, s.consumed, s.lastTick, now);
    LatelyTwice(c.votes, s.recent, s.lastTick, now);
    IdleUnitsForgotten(c, stations, s.units, s.lastTick, Step(s.lastTick, now), now);
  }

  // ---------------------------------------------------------------------
  // Crediting
  // ---------------------------------------------------------------------

  /** An idle tick of a unit credits, then forgets. */
  lemma IdleOneCredits(c: Config, stations: map<Device, Station>, u: Unit, dt: real, now: real)
    requires dt > 0.0
    ensures IdleOne(TickRulesOf(c), stations, u, dt, now) == Forgotten(c.votes, CreditOne(c, stations, u, dt, now), now)
  {
    hide Remembered, Listeners;
  }

  lemma IdleUnitsCredit(c: Config, stations: map<Device, Station>, units: map<UnitKey, Unit>, dt: real, now: real)
    requires dt > 0.0
    ensures IdleUnits(TickRulesOf(c), stations, units, dt, now)
            == ForgetUnits(c.votes, Credited(c, stations, units, dt, now), now)
  {
    hide IdleOne, Forgotten, Spent, CreditOne;
    forall k | k in units
      ensures IdleOne(TickRulesOf(c), stations, units[k], dt, now)
              == Forgotten(c.votes, CreditOne(c, stations, units[k], dt, now), now)
    {
      IdleOneCredits(c, stations, units[k], dt, now);
    }
  }

  /** An idle tick within ten seconds is an advance, and then forgetting. */
  lemma IdleTickAdvances(c: Config, stations: map<Device, Station>, s: Snapshot, now: real)
    requires 0.0 < s.lastTick < now <= s.lastTick + 10.0
    ensures IdleTick(c, stations, s, now) == Forget(c, Advanced(c, stations, s, now))
  {
    hide ForgetUnits, IdleUnits, Unexpired, Lately, Credited;
    IdleUnitsCredit(c, stations, s.units, now - s.lastTick, now);
  }

  lemma CreditTwice(c: Config, stations: map<Device, Station>, u: Unit, d: real, e: real, a: real, b: real)
    requires ListeningAt(c, stations, u, a) > 0 <==> ListeningAt(c, stations, u, b) > 0
    ensures CreditOne(c, stations, CreditOne(c, stations, u, d, a), e, b) == CreditOne(c, stations, u, d + e, b)
  {
    hide Listeners;
  }

  lemma CreditedTwice(c: Config, stations: map<Device, Station>, units: map<UnitKey, Unit>, d: real, e: real, a: real,
                      b: real)
    requires forall k :: k in units ==>
               (ListeningAt(c, stations, units[k], a) > 0 <==> ListeningAt(c, stations, units[k], b) > 0)
    ensures Credited(c, stations, Credited(c, stations, units, d, a), e, b) == Credited(c, stations, units, d + e, b)
  {
    hide CreditOne, ListeningAt;
    forall k | k in units
      ensures CreditOne(c, stations, CreditOne(c, stations, units[k], d, a), e, b)
              == CreditOne(c, stations, units[k], d + e, b)
    {
      CreditTwice(c, stations, units[k], d, e, a, b);
    }
  }

  /** Two advances in a row are one, as long as nobody starts or stops listening in between. */
  lemma AdvanceTwice(c: Config, stations: map<Device, Station>, s: Snapshot, a: real, b: real)
    requires 0.0 < s.lastTick < a < b
    requires forall k :: k in s.units ==>
               (ListeningAt(c, stations, s.units[k], a) > 0 <==> ListeningAt(c, stations, s.units[k], b) > 0)
    ensures Advanced(c, stations, Advanced(c, stations, s, a), b) == Advanced(c, stations, s, b)
  {
    hide Credited, ListeningAt;
    CreditedTwice(c, stations, s.units, a - s.lastTick, b - a, a, b);
    assert (a - s.lastTick) + (b - a) == b - s.lastTick;
  }

  /** After any number of idle ticks, the state is the advanced one with what is too old forgotten. */
  lemma {:induction false} TicksAreOneAdvance(c: Config, stations: map<Device, Station>, s: Snapshot, times: seq<real>)
    requires s.lastTick > 0.0 && times != [] && Steps(s.lastTick, times) && Steady(c, stations, s.units, times)
    ensures times[|times| - 1] > s.lastTick
    ensures IdleTicks(c, stations, s, times) == Forget(c, Advanced(c, stations, s, times[|times| - 1]))
  {
    hide IdleTick, Forget, Advanced;
    var n := |times| - 1;
    if n == 0 {
      assert times[..0] == [];
      IdleTickAdvances(c, stations, s, times[0]);
    } else {
      var was := times[..n];
      StepsBefore(s.lastTick, times);
      SteadyBefore(c, stations, s.units, times);
      TicksAreOneAdvance(c, stations, s, was);
      var a := Advanced(c, stations, s, times[n - 1]);
      assert a.lastTick == times[n - 1] by { AdvancedAt(c, stations, s, times[n - 1]); }
      IdleAfterForget(c, stations, a, times[n]);
      IdleTickAdvances(c, stations, a, times[n]);
      SteadyAt(c, stations, s.units, times, n - 1, n);
      AdvanceTwice(c, stations, s, times[n - 1], times[n]);
    }
  }

  lemma AdvancedAt(c: Config, stations: map<Device, Station>, s: Snapshot, now: real)
    ensures Advanced(c, stations, s, now).lastTick == now
  {
    hide Credited;
  }

  lemma StepsBefore(t: real, times: seq<real>)
    requires Steps(t, times) && |times| > 1
    ensures Steps(t, times[..|times| - 1])
    ensures times[|times| - 2] < times[|times| - 1] <= times[|times| - 2] + 10.0
  {
    var n := |times| - 1;
    var was := times[..n];
    forall i | 0 <= i < n ensures Previous(t, was, i) < was[i] <= Previous(t, was, i) + 10.0 {
      assert was[i] == times[i] && Previous(t, was, i) == Previous(t, times, i);
    }
    assert Previous(t, times, n) == times[n - 1];
  }

  lemma SteadyBefore(c: Config, stations: map<Device, Station>, units: map<UnitKey, Unit>, times: seq<real>)
    requires Steady(c, stations, units, times) && times != []
    ensures Steady(c, stations, units, times[..|times| - 1])
  {
    hide ListeningAt;
    forall k | k in units ensures SteadyUnit(c, stations, units[k], times[..|times| - 1]) {
      assert SteadyUnit(c, stations, units[k], times);
    }
  }

  lemma SteadyAt(c: Config, stations: map<Device, Station>, units: map<UnitKey, Unit>, times: seq<real>, i: nat, j: nat)
    requires Steady(c, stations, units, times) && i < |times| && j < |times|
    ensures forall k :: k in units ==>
              (ListeningAt(c, stations, units[k], times[i]) > 0 <==> ListeningAt(c, stations, units[k], times[j]) > 0)
  {
    hide ListeningAt;
    forall k | k in units
      ensures ListeningAt(c, stations, units[k], times[i]) > 0 <==> ListeningAt(c, stations, units[k], times[j]) > 0
    {
      assert SteadyUnit(c, stations, units[k], times);
    }
  }

  /**
   Fast-forwarding refines ticking: from an idle state whose clock has started, advancing to the last of the tick times
   and then ticking gives the same state as ticking at all of those times and then once more.
   */
  lemma AdvanceThenTick(c: Config, stations: map<Device, Station>, s: Snapshot, times: seq<real>, last: real)
    requires s.lastTick > 0.0 && times != [] && Steps(s.lastTick, times) && Steady(c, stations, s.units, times)
    requires times[|times| - 1] <= last
    ensures IdleTick(c, stations, IdleTicks(c, stations, s, times), last)
            == IdleTick(c, stations, Advanced(c, stations, s, times[|times| - 1]), last)
  {
    hide IdleTick, IdleTicks, Forget, Advanced, Steady, Steps;
    TicksAreOneAdvance(c, stations, s, times);
    AdvancedAt(c, stations, s, times[|times| - 1]);
    IdleAfterForget(c, stations, Advanced(c, stations, s, times[|times| - 1]), last);
  }

  /** Without a started clock the two differ: the first tick credits nothing, but the advance takes its place. */
  lemma ClockMustHaveStarted(c: Config, stations: map<Device, Station>, k: UnitKey, u: Unit)
    requires u.exposure == 0.0 && u.members != {} && ListeningAt(c, stations, u, 3.0) > 0
             && ListeningAt(c, stations, u, 4.0) > 0
    ensures var s := Snapshot(map[k := u], map[], [], 0.0);
            Steps(s.lastTick, [1.0, 3.0])
            && IdleTick(c, stations, IdleTicks(c, stations, s, [1.0, 3.0]), 4.0)
               != IdleTick(c, stations, Advanced(c, stations, s, 3.0), 4.0)
  {
    var s := Snapshot(map[k := u], map[], [], 0.0);
    var s1 := IdleTick(c, stations, s, 1.0);
    TwoTicks(c, stations, s, 1.0, 3.0);
    hide Remembered, IdleTicks, Unexpired, Lately;
    assert k in s1.units && s1.units[k].exposure == 0.0 && s1.units[k].members == u.members;
    var s2 := IdleTick(c, stations, s1, 3.0);
    assert k in s2.units && s2.units[k].exposure == 2.0 && s2.units[k].members == u.members;
    var s3 := IdleTick(c, stations, s2, 4.0);
    assert k in s3.units && s3.units[k].exposure == 3.0;
    var a := Advanced(c, stations, s, 3.0);
    var a1 := IdleTick(c, stations, a, 4.0);
    assert k in a1.units && a1.units[k].exposure == 1.0;
  }

  lemma TwoTicks(c: Config, stations: map<Device, Station>, s: Snapshot, a: real, b: real)
    ensures IdleTicks(c, stations, s, [a, b]) == IdleTick(c, stations, IdleTick(c, stations, s, a), b)
  {
    hide IdleTick;
    assert [a, b][..1] == [a] && [a][..0] == [];
    assert IdleTicks(c, stations, s, [a]) == IdleTick(c, stations, s, a);
  }

  /**
   Fast-forwarding refines ticking from last tick t: for every state whose last tick is t, every schedule of ticks in
   steps of at most ten seconds during which nobody starts or stops listening, and every tick at or after its end.
   */
  ghost predicate Refines(c: Config, t: real) {
    forall stations, s: Snapshot, times, last :: Scheduled(c, stations, s, times, last) && s.lastTick == t ==>
      SkipsTo(c, stations, s, times, last)
  }

  ghost predicate Scheduled(c: Config, stations: map<Device, Station>, s: Snapshot, times: seq<real>, last: real) {
    times != [] && Steps(s.lastTick, times) && Steady(c, stations, s.units, times) && times[|times| - 1] <= last
  }

  ghost predicate SkipsTo(c: Config, stations: map<Device, Station>, s: Snapshot, times: seq<real>, last: real)
    requires times != []
  {
    IdleTick(c, stations, IdleTicks(c, stations, s, times), last)
    == IdleTick(c, stations, Advanced(c, stations, s, times[|times| - 1]), last)
  }

  /** A unit with one station, which listens from the start until the given time. */
  lemma OneListener(c: Config, until: real) returns (stations: map<Device, Station>, k: UnitKey, u: Unit)
    ensures u.exposure == 0.0 && u.members != {}
    ensures forall t :: t <= until ==> ListeningAt(c, stations, u, t) > 0
  {
    k := 0;
    stations := map["phone" := Station("net", 0.0, 0.0, true, 0.0, 0.0, until - c.evidence.timeout, k)];
    u := Unit(k, Geo.Cell(0, 0), 0.0, 0.0, {"phone"}, 0.0, 0.0, 0.0, map[], []);
    forall t | t <= until ensures ListeningAt(c, stations, u, t) > 0 {
      assert "phone" in Listeners(stations, u.members, t, c.evidence.timeout);
    }
  }

  /** Exactly when fast-forwarding refines ticking: once the clock has started. */
  lemma RefinesExactly(c: Config, t: real)
    requires t >= 0.0
    ensures Refines(c, t) <==> t > 0.0
  {
    hide IdleTick, IdleTicks, Advanced, Steps, ListeningAt;
    if t > 0.0 {
      forall stations, s: Snapshot, times, last | Scheduled(c, stations, s, times, last) && s.lastTick == t
        ensures SkipsTo(c, stations, s, times, last)
      {
        AdvanceThenTick(c, stations, s, times, last);
      }
    } else {
      var stations, k, u := OneListener(c, 4.0);
      ClockMustHaveStarted(c, stations, k, u);
      var s, times := Snapshot(map[k := u], map[], [], 0.0), [1.0, 3.0];
      assert SteadyUnit(c, stations, u, times);
      assert Scheduled(c, stations, s, times, 4.0);
      assert !SkipsTo(c, stations, s, times, 4.0);
    }
  }

  // ---------------------------------------------------------------------
  // When an idle state ticks idly
  // ---------------------------------------------------------------------

  /**
   A registry found idle at time t ticks idly at `now`: whatever the stations, the step and the consumed keys, the tick
   leaves the idle units, offers nothing and forms nothing.
   */
  ghost predicate TicksIdly(c: Config, t: real, now: real)
    requires Geo.ValidGrid(c.grid)
  {
    forall stations, units0, dt, consumed, units, votes, formed ::
      UnitsOk(c.grid, units0, t) && AllPast(c, units0, t)
      && AllTurned(TickRulesOf(c), stations, units0, dt, now, consumed, units, votes, formed) ==>
        units == IdleUnits(TickRulesOf(c), stations, units0, dt, now) && votes == [] && formed == 0
  }

  /** A unit whose one pick lies exactly at the horizon of t, where the idle check takes it for past. */
  function EdgeUnit(c: Config, t: real): Unit
    requires Geo.ValidGrid(c.grid)
  {
    FreshUnit(c.grid, Geo.CellOf(c.grid, 0.0, 0.0)).(picks := [EdgePick(c, t)])
  }

  function EdgePick(c: Config, t: real): UnitPick {
    UnitPick("phone", 0, Horizon(c.votes, t), 0.0, 0.0, 0.0, "net", false)
  }

  /** Some outcome of a tick at which a unit keeps its only pick. */
  lemma KeptTick(c: VoteRules, u: Unit, p: UnitPick, nElig: nat, adet: real, dt: real, now: real)
    returns (u2: Unit, offered: seq<Vote>, formed: nat)
    requires Votes.ValidRules(c) && u.picks == [p] && p.t >= Horizon(c, now)
    ensures u2.picks == [p] && u2.key == u.key && KeysRise(offered)
    ensures forall v :: v in offered ==> v.key.unit == u.key
    ensures Turned(c, u, nElig, adet, dt, now, map[], u2, offered, formed)
  {
    hide CountAll, Offered, VotesOf, Horizon, Remembered, KeysRise;
    var runs := [[p]];
    assert Concat(runs) == [p] by { assert runs[..0] == []; }
    assert Run([p], c.unitVoteSec) && MaximalRuns(runs, [p], c.unitVoteSec) && NonEmpty(runs);
    var all := VotesOf(c, u, runs, nElig, adet);
    var t := CountAll(c, Tally(Remembered(u.seen, Horizon(c, now)), u.votes, u.lastCounted, 0), all);
    u2 := u.(exposure := Credit(u, dt, nElig), seen := t.seen, votes := t.votes, lastCounted := t.lastCounted);
    offered, formed := Offered(all, map[], now - c.assocWindow), t.formed;
    assert Ticked(c, u, nElig, adet, dt, now, map[], u2, offered, formed, runs);
    hide Ticked, MaximalRuns, NonEmpty;
    TickedOffers(c, u, nElig, adet, dt, now, map[], u2, offered, formed, runs);
  }

  lemma OneOffers(k: UnitKey, offered: seq<Vote>)
    requires KeysRise(offered) && forall v :: v in offered ==> v.key.unit == k
    ensures Offers(map[k := offered], offered)
  {
    RisingOnce(offered);
    hide Once, KeysRise;
  }

  /** The registry of the one edge unit. */
  lemma EdgeIsPast(c: Config, t: real)
    requires Geo.ValidGrid(c.grid) && Votes.ValidRules(c.votes)
    ensures var units := map[EdgeUnit(c, t).key := EdgeUnit(c, t)];
            UnitsOk(c.grid, units, t) && AllPast(c, units, t)
  {
    hide Geo.ValidGrid, Geo.Key, Geo.CellOf, Geo.Center, Geo.Valid;
  }

  lemma OneTicked(r: TickRules, k: UnitKey, u: Unit, now: real, u2: Unit, offered: seq<Vote>, formed: nat)
    requires UnitTicked(r, map[], u, 0.0, now, map[], u2, offered, formed)
    ensures TickedTo(r, map[], map[k := u], 0.0, now, map[], [k], map[k := u2], map[k := offered], map[k := formed])
  {
    hide UnitTicked;
  }

  lemma OneRemains(k: UnitKey, u: Unit, u2: Unit)
    requires u2.picks != []
    ensures Remain(map[k := u], map[k := u2], map[k := u2])
  {
  }

  lemma OneTurned(r: TickRules, k: UnitKey, u: Unit, now: real, u2: Unit, offered: seq<Vote>, formed: nat)
    requires UnitTicked(r, map[], u, 0.0, now, map[], u2, offered, formed) && u2.picks != []
    requires Offers(map[k := offered], offered)
    ensures AllTurned(r, map[], map[k := u], 0.0, now, map[], map[k := u2], offered, formed)
  {
    hide UnitTicked, Offers, TickedTo, Remain, Formed;
    FormedMore(map[], [], k, formed);
    assert map[][k := formed] == map[k := formed] && [] + [k] == [k];
    assert Formed(map[], []) == 0 by { NothingFormed(); }
    assert Lists([k], map[k := u].Keys);
    OneTicked(r, k, u, now, u2, offered, formed);
    OneRemains(k, u, u2);
  }

  lemma NothingFormed()
    ensures Formed(map[], []) == 0
  {
  }

  lemma PicksGone(r: TickRules, stations: map<Device, Station>, k: UnitKey, u: Unit, dt: real, now: real, u2: Unit)
    requires u2.picks != []
    ensures map[k := u2] != IdleUnits(r, stations, map[k := u], dt, now)
  {
    var units := IdleUnits(r, stations, map[k := u], dt, now);
    assert k in units ==> units[k].picks == [];
    assert k in map[k := u2] && map[k := u2][k] == u2;
  }

  /** At a tick no later than the check, a pick exactly at the horizon is still held: the tick is not idle. */
  lemma EdgeTick(c: Config, t: real, now: real)
    requires Geo.ValidGrid(c.grid) && Votes.ValidRules(c.votes) && now <= t
    ensures !TicksIdly(c, t, now)
  {
    hide Geo.ValidGrid, Turned, SurveyOf, AllPast, UnitsOk, AllTurned, IdleUnits, KeysRise, Offers, FreshUnit;
    var u, r := EdgeUnit(c, t), TickRulesOf(c);
    var k := u.key;
    var s := SurveyOf(map[], u.members, now, r.timeout);
    var u2, offered, formed := KeptTick(c.votes, u, EdgePick(c, t), s.n, s.adet, 0.0, now);
    assert UnitTicked(r, map[], u, 0.0, now, map[], u2, offered, formed);
    OneOffers(k, offered);
    OneTurned(r, k, u, now, u2, offered, formed);
    PicksGone(r, map[], k, u, 0.0, now, u2);
    EdgeIsPast(c, t);
  }

  lemma LaterTick(c: Config, t: real, now: real, stations: map<Device, Station>, units0: map<UnitKey, Unit>, dt: real,
                  consumed: map<VoteKey, real>, units: map<UnitKey, Unit>, votes: seq<Vote>, formed: nat)
    requires AllPast(c, units0, t) && t < now
    requires AllTurned(TickRulesOf(c), stations, units0, dt, now, consumed, units, votes, formed)
    ensures units == IdleUnits(TickRulesOf(c), stations, units0, dt, now) && votes == [] && formed == 0
  {
    hide AllPast, TickedTo, Remain, Offers, Formed, Quiet, Lists, IdleUnits;
    PastIsQuiet(c, units0, t, now);
    var r := TickRulesOf(c);
    var ks, after, offers, news :|
      Lists(ks, units0.Keys) && TickedTo(r, stations, units0, dt, now, consumed, ks, after, offers, news)
      && Remain(units0, after, units) && Offers(offers, votes) && formed == Formed(news, ks);
    QuietTick(r, stations, units0, dt, now, consumed, ks, after, offers, news, units, votes);
  }

  /** Exactly when a registry found idle ticks idly: at every tick later than the check. */
  lemma IdleExactly(c: Config, t: real, now: real)
    requires Geo.ValidGrid(c.grid) && Votes.ValidRules(c.votes)
    ensures TicksIdly(c, t, now) <==> t < now
  {
    hide Geo.ValidGrid, AllPast, UnitsOk, AllTurned, IdleUnits;
    if t < now {
      forall stations, units0, dt, consumed, units, votes, formed |
        UnitsOk(c.grid, units0, t) && AllPast(c, units0, t)
        && AllTurned(TickRulesOf(c), stations, units0, dt, now, consumed, units, votes, formed)
        ensures units == IdleUnits(TickRulesOf(c), stations, units0, dt, now) && votes == [] && formed == 0
      {
        LaterTick(c, t, now, stations, units0, dt, consumed, units, votes, formed);
      }
    } else {
      EdgeTick(c, t, now);
    }
  }
}
