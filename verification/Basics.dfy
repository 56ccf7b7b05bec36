/** What the other modules share: options, extremes, rounding up, and signs of products. */
module Basics {

  datatype Option<T> = None | Some(value: T)

  function Abs(a: real): real { if a < 0.0 then -a else a }

  function Min(a: real, b: real): real { if a <= b then a else b }

  function Max(a: real, b: real): real { if a >= b then a else b }

  function MaxInt(a: int, b: int): int { if a >= b then a else b }

  function Ceil(x: real): int { -((-x).Floor) }

  lemma ProductPositive(a: real, b: real)
    requires a > 0.0 && b > 0.0
    ensures a * b > 0.0
  {
  }

  lemma ProductNotNegative(a: real, b: real)
    requires a >= 0.0 && b >= 0.0
    ensures a * b >= 0.0
  {
  }

  lemma SubsetSize<T>(a: set<T>, b: set<T>)
    requires a <= b
    ensures |a| <= |b|
  {
    assert b == a + (b - a);
  }
}
