/** The token-bucket limiter, with the clock as an argument, and when evicting idle buckets can be noticed. */
module RateLimit {
  import opened Basics

  type Key = string

  datatype Bucket = Bucket(tokens: real, lastSeen: real)

  type Buckets = map<Key, Bucket>

  /** Ten minutes, in seconds. */
  const STALE_BUCKET_TTL := 600.0

  datatype Limits = Limits(rate: real, burst: nat)

  /** Tokens accruing over a span of time. */
  function Earned(l: Limits, elapsed: real): real { elapsed * l.rate }

  lemma EarnedLaws(l: Limits, a: real, b: real)
    ensures Earned(l, a + b) == Earned(l, a) + Earned(l, b) && Earned(l, 0.0) == 0.0
    ensures l.rate >= 0.0 && a >= 0.0 ==> Earned(l, a) >= 0.0
  {
    assert (a + b) * l.rate == a * l.rate + b * l.rate;
  }

  /** The tokens a bucket would hold at time t. */
  function Refilled(l: Limits, b: Bucket, t: real): real {
    Min(l.burst as real, b.tokens + Earned(l, t - b.lastSeen))
  }

  /** Whether a request passes now. A key without a bucket always passes. */
  predicate Passes(l: Limits, bs: Buckets, key: Key, now: real) {
    key !in bs || Refilled(l, bs[key], now) >= 1.0
  }

  function AfterAllow(l: Limits, bs: Buckets, key: Key, now: real): Buckets {
    if key !in bs then bs[key := Bucket(l.burst as real - 1.0, now)]
    else
      var t := Refilled(l, bs[key], now);
      bs[key := Bucket(if t < 1.0 then t else t - 1.0, now)]
  }

  predicate Stale(b: Bucket, now: real) { now - b.lastSeen > STALE_BUCKET_TTL }

  function AfterSweep(bs: Buckets, now: real): Buckets {
    map k | k in bs && !Stale(bs[k], now) :: bs[k]
  }

  class Limiter {
    var buckets: Buckets
    const limits: Limits

    constructor (ratePerSecond: real, burst: nat)
      ensures buckets == map[] && limits == Limits(ratePerSecond, burst)
    {
      buckets, limits := map[], Limits(ratePerSecond, burst);
    }

    method Allow(key: Key, now: real) returns (ok: bool)
      modifies this
      ensures ok == Passes(limits, old(buckets), key, now)
      ensures buckets == AfterAllow(limits, old(buckets), key, now)
    {
      if key !in buckets {
        buckets := buckets[key := Bucket(limits.burst as real - 1.0, now)];
        return true;
      }
      var b := buckets[key];
      var elapsed := now - b.lastSeen;
      var tokens := Min(limits.burst as real, b.tokens + Earned(limits, elapsed));
      buckets := buckets[key := Bucket(tokens, now)];
      if tokens < 1.0 {
        return false;
      }
      buckets := buckets[key := Bucket(tokens - 1.0, now)];
      return true;
    }

    method Sweep(now: real)
      modifies this
      ensures buckets == AfterSweep(old(buckets), now)
    {
      ghost var was := buckets;
      var todo := buckets.Keys;
      while todo != {}
        invariant todo <= was.Keys
        invariant buckets == map k | k in was && (k in todo || !Stale(was[k], now)) :: was[k]
        decreases todo
      {
        var key :| key in todo;
        if now - buckets[key].lastSeen > STALE_BUCKET_TTL {
          buckets := buckets - {key};
        }
        todo := todo - {key};
      }
    }
  }

  // ---------------------------------------------------------------------
  // Runs
  // ---------------------------------------------------------------------

  datatype Op = Request(key: Key, now: real) | Evict(now: real)

  function After(l: Limits, bs: Buckets, op: Op): Buckets {
    match op
    case Request(key, now) => AfterAllow(l, bs, key, now)
    case Evict(now) => AfterSweep(bs, now)
  }

  /** The answers to the requests of a run, in order. */
  function Answers(l: Limits, bs: Buckets, ops: seq<Op>): seq<bool>
    decreases |ops|
  {
    if ops == [] then []
    else
      (if ops[0].Request? then [Passes(l, bs, ops[0].key, ops[0].now)] else [])
      + Answers(l, After(l, bs, ops[0]), ops[1..])
  }

  /** The clock never runs backwards and stays between t and u. */
  ghost predicate Ordered(ops: seq<Op>, t: real, u: real)
    decreases |ops|
  {
    if ops == [] then t <= u else t <= ops[0].now && Ordered(ops[1..], ops[0].now, u)
  }

  function WithoutEvictions(ops: seq<Op>): seq<Op>
    decreases |ops|
  {
    if ops == [] then [] else (if ops[0].Request? then [ops[0]] else []) + WithoutEvictions(ops[1..])
  }

  // ---------------------------------------------------------------------
  // The quota
  // ---------------------------------------------------------------------

  /** How many requests of key pass in a run without evictions. */
  function Allowed(l: Limits, bs: Buckets, ops: seq<Op>, key: Key): nat
    decreases |ops|
  {
    if ops == [] then 0
    else (if ops[0].Request? && ops[0].key == key && Passes(l, bs, key, ops[0].now) then 1 else 0)
         + Allowed(l, After(l, bs, ops[0]), ops[1..], key)
  }

  ghost predicate NoEvictionOf(l: Limits, bs: Buckets, ops: seq<Op>, key: Key)
    decreases |ops|
  {
    ops == [] || ((ops[0].Evict? && key in bs ==> !Stale(bs[key], ops[0].now))
                  && NoEvictionOf(l, After(l, bs, ops[0]), ops[1..], key))
  }

  /** The most a key can still spend between t and u. */
  function Credit(l: Limits, bs: Buckets, key: Key, t: real, u: real): real {
    (if key in bs then Refilled(l, bs[key], t) else l.burst as real) + Earned(l, u - t)
  }

  lemma CreditLater(l: Limits, bs: Buckets, key: Key, t: real, v: real, u: real)
    requires l.rate >= 0.0 && t <= v
    ensures Credit(l, bs, key, v, u) <= Credit(l, bs, key, t, u)
  {
    hide Earned;
    EarnedLaws(l, v - t, u - v);
    if key in bs { EarnedLaws(l, v - t, t - bs[key].lastSeen); }
  }

  /** A passing request costs at least one token of credit; nothing else creates credit. */
  lemma CreditSpent(l: Limits, bs: Buckets, op: Op, key: Key, u: real)
    requires l.burst >= 1
    requires op.Evict? && key in bs ==> !Stale(bs[key], op.now)
    ensures Credit(l, After(l, bs, op), key, op.now, u)
         <= Credit(l, bs, key, op.now, u) - if op.Request? && op.key == key && Passes(l, bs, key, op.now) then 1.0
           else 0.0
  {
    EarnedLaws(l, 0.0, 0.0);
    hide Earned;
  }

  ghost predicate Solvent(bs: Buckets) { forall k :: k in bs ==> bs[k].tokens >= 0.0 }

  lemma StaysSolvent(l: Limits, bs: Buckets, op: Op, t: real)
    requires l.burst >= 1 && l.rate >= 0.0 && Solvent(bs) && NotAhead(bs, t) && t <= op.now
    ensures Solvent(After(l, bs, op)) && NotAhead(After(l, bs, op), op.now)
  {
    if op.Request? && op.key in bs {
      EarnedLaws(l, op.now - bs[op.key].lastSeen, 0.0);
    }
    hide Earned;
  }

  ghost predicate NotAhead(bs: Buckets, t: real) { forall k :: k in bs ==> bs[k].lastSeen <= t }

  /**
   While its bucket lives, a key is allowed at most burst + rate * elapsed requests in any interval [t, u],
   whatever the limiter's state at t.
   */
  lemma {:induction false} Quota(l: Limits, bs: Buckets, ops: seq<Op>, key: Key, t: real, u: real)
    requires l.burst >= 1 && l.rate >= 0.0 && Solvent(bs) && NotAhead(bs, t)
    requires Ordered(ops, t, u) && NoEvictionOf(l, bs, ops, key)
    ensures Allowed(l, bs, ops, key) as real <= Credit(l, bs, key, t, u) <= l.burst as real + Earned(l, u - t)
    decreases |ops|
  {
    hide Earned, Passes, Stale;
    if ops == [] {
      EarnedLaws(l, u - t, 0.0);
      if key in bs { EarnedLaws(l, t - bs[key].lastSeen, 0.0); }
    } else {
      var op := ops[0];
      StaysSolvent(l, bs, op, t);
      Quota(l, After(l, bs, op), ops[1..], key, op.now, u);
      CreditSpent(l, bs, op, key, u);
      CreditLater(l, bs, key, t, op.now, u);
    }
  }

  ghost predicate WithinQuota(l: Limits) {
    forall ops, key, t, u :: Ordered(ops, t, u) && NoEvictionOf(l, map[], ops, key) ==>
      Allowed(l, map[], ops, key) as real <= l.burst as real + Earned(l, u - t)
  }

  /** The quota holds for every run from an empty limiter exactly when the burst is at least one. */
  lemma QuotaExactly(l: Limits)
    requires l.rate >= 0.0
    ensures WithinQuota(l) <==> l.burst >= 1
  {
    if l.burst >= 1 {
      forall ops, key, t, u | Ordered(ops, t, u) && NoEvictionOf(l, map[], ops, key)
        ensures Allowed(l, map[], ops, key) as real <= l.burst as real + Earned(l, u - t)
      {
        Quota(l, map[], ops, key, t, u);
      }
    } else {
      var ops := [Request("a", 0.0)];
      EarnedLaws(l, 0.0, 0.0);
      assert ops[1..] == [] && Ordered(ops, 0.0, 0.0) && NoEvictionOf(l, map[], ops, "a");
      assert Allowed(l, map[], ops, "a") == 1;
      assert (0.0 - 0.0) as real == 0.0;
    }
  }

  // ---------------------------------------------------------------------
  // Evictions
  // ---------------------------------------------------------------------

  /** The swept buckets are the unswept ones without some that have been idle beyond the limit. */
  ghost predicate Swept(s: Buckets, b: Buckets, now: real) {
    s.Keys <= b.Keys && (forall k :: k in s ==> s[k] == b[k]) && (forall k :: k in b && k !in s ==> Stale(b[k], now))
  }

  /** A bucket idle beyond the limit is full again, like the new bucket that replaces it. */
  lemma IdleIsFull(l: Limits, b: Bucket, now: real)
    requires l.rate >= 0.0 && Earned(l, STALE_BUCKET_TTL) >= l.burst as real && b.tokens >= 0.0 && Stale(b, now)
    ensures Refilled(l, b, now) == l.burst as real
  {
    EarnedLaws(l, now - b.lastSeen - STALE_BUCKET_TTL, STALE_BUCKET_TTL);
    hide Earned;
  }

  /** Two runs from related states, one with and one without its evictions, answer alike. */
  lemma {:induction false} EvictionsUnseen(l: Limits, s: Buckets, b: Buckets, ops: seq<Op>, t: real, u: real)
    requires l.burst >= 1 && l.rate >= 0.0 && Earned(l, STALE_BUCKET_TTL) >= l.burst as real
    requires Swept(s, b, t) && Solvent(b) && NotAhead(b, t) && Ordered(ops, t, u)
    ensures Answers(l, s, ops) == Answers(l, b, WithoutEvictions(ops))
    decreases |ops|
  {
    hide Earned;
    if ops != [] {
      var op := ops[0];
      var s' := After(l, s, op);
      if op.Request? {
        if op.key in b && op.key !in s { IdleIsFull(l, b[op.key], op.now); }
        StaysSolvent(l, b, op, t);
        EvictionsUnseen(l, s', After(l, b, op), ops[1..], op.now, u);
        assert WithoutEvictions(ops) == [op] + WithoutEvictions(ops[1..]);
        assert WithoutEvictions(ops)[1..] == WithoutEvictions(ops[1..]);
      } else {
        EvictionsUnseen(l, s', b, ops[1..], op.now, u);
        assert WithoutEvictions(ops) == WithoutEvictions(ops[1..]);
      }
    }
  }

  function Repeat(key: Key, t: real, n: nat): seq<Op> {
    if n == 0 then [] else [Request(key, t)] + Repeat(key, t, n - 1)
  }

  /** No eviction in any run from an empty limiter changes any answer. */
  ghost predicate Invisible(l: Limits) {
    forall ops, t, u :: Ordered(ops, t, u) ==> Answers(l, map[], ops) == Answers(l, map[], WithoutEvictions(ops))
  }

  function Final(l: Limits, bs: Buckets, ops: seq<Op>): Buckets
    decreases |ops|
  {
    if ops == [] then bs else Final(l, After(l, bs, ops[0]), ops[1..])
  }

  /** The answer to one operation: none to an eviction. */
  function Answer(l: Limits, bs: Buckets, op: Op): seq<bool> {
    if op.Request? then [Passes(l, bs, op.key, op.now)] else []
  }

  lemma AnswersFirst(l: Limits, bs: Buckets, ops: seq<Op>)
    requires ops != []
    ensures Answers(l, bs, ops) == Answer(l, bs, ops[0]) + Answers(l, After(l, bs, ops[0]), ops[1..])
    ensures WithoutEvictions(ops) == (if ops[0].Request? then [ops[0]] else []) + WithoutEvictions(ops[1..])
    ensures Final(l, bs, ops) == Final(l, After(l, bs, ops[0]), ops[1..])
  {
    hide Passes, After;
  }

  lemma AnswersNone(l: Limits, bs: Buckets)
    ensures Answers(l, bs, []) == [] && WithoutEvictions([]) == [] && Final(l, bs, []) == bs
  {
  }

  lemma {:induction false} AnswersConcat(l: Limits, bs: Buckets, a: seq<Op>, b: seq<Op>)
    ensures Answers(l, bs, a + b) == Answers(l, bs, a) + Answers(l, Final(l, bs, a), b)
    ensures WithoutEvictions(a + b) == WithoutEvictions(a) + WithoutEvictions(b)
    decreases |a|
  {
    hide *;
    if a == [] {
      AnswersNone(l, bs);
      assert a + b == b;
    } else {
      assert (a + b)[1..] == a[1..] + b && (a + b)[0] == a[0];
      AnswersFirst(l, bs, a);
      AnswersFirst(l, bs, a + b);
      AnswersConcat(l, After(l, bs, a[0]), a[1..], b);
    }
  }

  function Yes(n: nat): (r: seq<bool>)
    ensures |r| == n
  {
    seq(n, _ => true)
  }

  /** Requests at one instant spend a bucket down one by one. */
  lemma {:induction false} SpendDown(l: Limits, key: Key, t: real, tokens: nat, n: nat)
    requires n <= tokens <= l.burst
    ensures var bs := map[key := Bucket(tokens as real, t)];
            Answers(l, bs, Repeat(key, t, n)) == Yes(n)
            && Final(l, bs, Repeat(key, t, n)) == map[key := Bucket((tokens - n) as real, t)]
  {
    hide Answers, Final, After, Passes;
    var bs := map[key := Bucket(tokens as real, t)];
    if n == 0 {
      AnswersNone(l, bs);
    } else {
      SpendDown(l, key, t, tokens - 1, n - 1);
      assert Repeat(key, t, n)[1..] == Repeat(key, t, n - 1);
      AnswersFirst(l, bs, Repeat(key, t, n));
      SpendOne(l, key, t, tokens);
    }
  }

  lemma SpendOne(l: Limits, key: Key, t: real, tokens: nat)
    requires 0 < tokens <= l.burst
    ensures var bs := map[key := Bucket(tokens as real, t)];
            Passes(l, bs, key, t) && After(l, bs, Request(key, t)) == map[key := Bucket((tokens - 1) as real, t)]
  {
    EarnedLaws(l, 0.0, 0.0);
    hide Earned;
  }

  /** A new client may spend its whole burst at once. */
  lemma Burst(l: Limits, key: Key, t: real)
    requires l.burst >= 1
    ensures Answers(l, map[], Repeat(key, t, l.burst)) == Yes(l.burst)
    ensures Final(l, map[], Repeat(key, t, l.burst)) == map[key := Bucket(0.0, t)]
  {
    SpendDown(l, key, t, l.burst - 1, l.burst - 1);
    assert Repeat(key, t, l.burst)[1..] == Repeat(key, t, l.burst - 1);
    assert After(l, map[], Request(key, t)) == map[key := Bucket((l.burst - 1) as real, t)];
  }

  lemma {:induction false} RepeatFacts(l: Limits, bs: Buckets, key: Key, t: real, n: nat)
    ensures WithoutEvictions(Repeat(key, t, n)) == Repeat(key, t, n)
    ensures Ordered(Repeat(key, t, n), t, t) && NoEvictionOf(l, bs, Repeat(key, t, n), key)
    ensures Answers(l, bs, Repeat(key, t, n)) == Yes(n) ==> Allowed(l, bs, Repeat(key, t, n), key) == n
    decreases n
  {
    hide Passes, AfterAllow;
    if n > 0 {
      var r := Repeat(key, t, n);
      assert r[1..] == Repeat(key, t, n - 1);
      var next := After(l, bs, r[0]);
      RepeatFacts(l, next, key, t, n - 1);
      var a := Answers(l, bs, r);
      assert a == [Passes(l, bs, key, t)] + Answers(l, next, r[1..]);
      if a == Yes(n) {
        assert a[0] && a[1..] == Yes(n - 1);
      }
    }
  }

  lemma {:induction false} OrderedConcat(a: seq<Op>, b: seq<Op>, t: real, v: real, u: real)
    requires Ordered(a, t, v) && Ordered(b, v, u)
    ensures Ordered(a + b, t, u)
    decreases |a|
  {
    if a == [] {
      assert a + b == b;
      OrderedEarlier(b, t, v, u);
    } else {
      assert (a + b)[1..] == a[1..] + b;
      OrderedConcat(a[1..], b, a[0].now, v, u);
    }
  }

  lemma OrderedEarlier(b: seq<Op>, t: real, v: real, u: real)
    requires t <= v && Ordered(b, v, u)
    ensures Ordered(b, t, u)
  {
  }

  /** A spent bucket that has not refilled cannot pass a whole burst. */
  lemma SpentCannotBurst(l: Limits, key: Key, late: real)
    requires l.burst >= 1 && l.rate >= 0.0 && late >= 0.0 && Earned(l, late) < l.burst as real
    ensures Answers(l, map[key := Bucket(0.0, 0.0)], Repeat(key, late, l.burst)) != Yes(l.burst)
  {
    hide Earned, Passes, AfterAllow;
    var spent := map[key := Bucket(0.0, 0.0)];
    RepeatFacts(l, spent, key, late, l.burst);
    Quota(l, spent, Repeat(key, late, l.burst), key, late, late);
    EarnedLaws(l, 0.0, 0.0);
    assert late - 0.0 == late && late - late == 0.0;
  }

  /** A burst, an eviction just after the limit, and a second burst before the bucket has refilled. */
  lemma TooSlowToRefill(l: Limits, late: real) returns (ops: seq<Op>)
    requires l.burst >= 1 && l.rate >= 0.0 && late > STALE_BUCKET_TTL && Earned(l, late) < l.burst as real
    ensures Ordered(ops, 0.0, late) && Answers(l, map[], ops) != Answers(l, map[], WithoutEvictions(ops))
  {
    hide *;
    var n, empty: Buckets := l.burst, map[];
    var first, second := Repeat("a", 0.0, n), Repeat("a", late, n);
    var spent := map["a" := Bucket(0.0, 0.0)];
    Burst(l, "a", 0.0);
    Burst(l, "a", late);
    RepeatFacts(l, empty, "a", 0.0, n);
    RepeatFacts(l, empty, "a", late, n);
    SweepEmpties(late);
    var rest := [Evict(late)] + second;
    EvictFirst(l, spent, late, second);
    ops := first + rest;
    OrderedConcat(first, rest, 0.0, 0.0, late);
    AnswersConcat(l, empty, first, rest);
    AnswersConcat(l, empty, first, second);
    SpentCannotBurst(l, "a", late);
    assert (Yes(n) + Yes(n))[n..] == Yes(n) && (Yes(n) + Answers(l, spent, second))[n..] == Answers(l, spent, second);
  }

  lemma SweepEmpties(late: real)
    requires late > STALE_BUCKET_TTL
    ensures late > 0.0 && AfterSweep(map["a" := Bucket(0.0, 0.0)], late) == map[]
  {
  }

  /** A run that begins with an eviction. */
  lemma EvictFirst(l: Limits, bs: Buckets, late: real, ops: seq<Op>)
    ensures Answers(l, bs, [Evict(late)] + ops) == Answers(l, AfterSweep(bs, late), ops)
    ensures WithoutEvictions([Evict(late)] + ops) == WithoutEvictions(ops)
    ensures Ordered(ops, late, late) && late >= 0.0 ==> Ordered([Evict(late)] + ops, 0.0, late)
  {
    hide Passes, AfterAllow;
    assert ([Evict(late)] + ops)[1..] == ops;
  }

  /** With an empty burst even a second request is noticed. */
  lemma EmptyBurst(l: Limits) returns (ops: seq<Op>)
    requires l.burst == 0
    ensures Ordered(ops, 0.0, 601.0) && Answers(l, map[], ops) != Answers(l, map[], WithoutEvictions(ops))
  {
    hide Earned;
    var a, b, c := Request("a", 0.0), Evict(601.0), Request("a", 601.0);
    ops := [a, b, c];
    var s1 := map["a" := Bucket(-1.0, 0.0)];
    assert ops[1..] == [b, c] && [b, c][1..] == [c] && [c][1..] == [] && [a, c][1..] == [c];
    assert Ordered([c], 0.0, 601.0) && Ordered([b, c], 0.0, 601.0);
    assert WithoutEvictions([c]) == [c] && WithoutEvictions([b, c]) == [c];
    assert WithoutEvictions(ops) == [a, c];
    assert After(l, map[], a) == s1 && After(l, s1, b) == map[];
    assert Answers(l, map[], [c]) == [true] && Answers(l, s1, [b, c]) == [true];
    assert Answers(l, s1, [c]) == [false];
    assert Answers(l, map[], ops) == [true, true];
    assert Answers(l, map[], [a, c]) == [true, false];
  }

  /**
   Exactly when evicting idle buckets can never be noticed: the burst is at least one, and a bucket
   refills completely within the time it takes to be called stale.
   */
  lemma InvisibleExactly(l: Limits)
    requires l.rate >= 0.0
    ensures Invisible(l) <==> l.burst >= 1 && l.rate * STALE_BUCKET_TTL >= l.burst as real
  {
    if l.burst == 0 {
      var ops := EmptyBurst(l);
    } else if l.rate * STALE_BUCKET_TTL >= l.burst as real {
      forall ops, t, u | Ordered(ops, t, u)
        ensures Answers(l, map[], ops) == Answers(l, map[], WithoutEvictions(ops))
      {
        EvictionsUnseen(l, map[], map[], ops, t, u);
      }
    } else {
      var late := Deadline(l);
      var ops := TooSlowToRefill(l, late);
    }
  }

  lemma Deadline(l: Limits) returns (late: real)
    requires l.rate >= 0.0 && l.rate * STALE_BUCKET_TTL < l.burst as real
    ensures late > STALE_BUCKET_TTL && Earned(l, late) < l.burst as real
  {
    if l.rate == 0.0 {
      late := STALE_BUCKET_TTL + 1.0;
      assert late * l.rate == 0.0;
    } else {
      var gap := (l.burst as real - l.rate * STALE_BUCKET_TTL) / (2.0 * l.rate);
      assert gap > 0.0;
      assert gap * l.rate == (l.burst as real - l.rate * STALE_BUCKET_TTL) / 2.0;
      late := STALE_BUCKET_TTL + gap;
      assert late * l.rate == STALE_BUCKET_TTL * l.rate + gap * l.rate;
    }
  }
}
