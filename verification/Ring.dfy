/** A fixed-size ring indexed by an absolute sample index, as a window onto an unbounded history. */
module Rings {

  class Ring<T> {
    const b: array<T>

    constructor (n: nat, init: T)
      requires n > 0
      ensures b.Length == n && fresh(b)
    {
      b := new T[n](_ => init);
    }

    function Get(k: nat): T
      requires b.Length > 0
      reads b
    {
      b[k % b.Length]
    }

    /** Every index of the history that is recent enough is still readable here. */
    ghost predicate Mirrors(hist: seq<T>, start: nat)
      reads b
    {
      b.Length > 0
      && forall k: nat :: Readable(hist, start, k) ==> Get(k) == hist[k - start]
    }

    /** k is in the history, among its last b.Length entries. */
    predicate Readable(hist: seq<T>, start: nat, k: nat) {
      start <= k < start + |hist| && start + |hist| <= k + b.Length
    }

    /** Appends to the history. */
    method Set(k: nat, v: T, ghost hist: seq<T>, ghost start: nat)
      requires Mirrors(hist, start) && k == start + |hist|
      modifies b
      ensures Mirrors(hist + [v], start)
    {
      b[k % b.Length] := v;
      forall i: nat | Readable(hist + [v], start, i) ensures Get(i) == (hist + [v])[i - start] {
        if i < k {
          assert Readable(hist, start, i);
          DistinctSlots(i, k, b.Length);
        }
      }
    }

    /** The values at a <= k < z, all of them still readable. */
    method Span(a: nat, z: nat, ghost hist: seq<T>, ghost start: nat) returns (out: seq<T>)
      requires Mirrors(hist, start) && start <= a <= z <= start + |hist| <= a + b.Length
      ensures out == hist[a - start..z - start]
    {
      out := [];
      for k := a to z
        invariant out == hist[a - start..k - start]
      {
        assert Readable(hist, start, k);
        out := out + [Get(k)];
      }
    }
  }

  /** Indices less than n apart use different slots. */
  lemma DistinctSlots(i: nat, k: nat, n: nat)
    requires i < k < i + n
    ensures i % n != k % n
  {
    var q := k / n - i / n;
    assert k - i == q * n + (k % n - i % n);
    Multiples(q, n);
  }

  lemma Multiples(q: int, n: nat)
    ensures q >= 1 ==> q * n >= n
    ensures q <= 0 ==> q * n <= 0
  {
  }
}
