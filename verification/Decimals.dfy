/** Numbers as texts with three decimals: which of them a text tells apart. */
module Decimals {
  import opened Basics

  /** A number printed with three decimals: its sign, and its magnitude in thousandths. */
  datatype Decimal = Decimal(negative: bool, thousandths: nat)

  /** The nearest whole number, the even one of two that are equally near. */
  function RoundHalfEven(y: real): nat
    requires y >= 0.0
  {
    var n := y.Floor;
    var f := y - n as real;
    if f < 0.5 || (f == 0.5 && n % 2 == 0) then n else n + 1
  }

  function Printed(x: real): Decimal { Decimal(x < 0.0, RoundHalfEven(Abs(x) * 1000.0)) }

  /** Numbers that print alike are at most a thousandth apart. */
  lemma PrintedNear(x: real, y: real)
    requires Printed(x) == Printed(y)
    ensures Abs(x - y) <= 0.001
  {
  }

  /** Numbers less than half a thousandth from a whole number of thousandths all print as that one. */
  lemma PrintedAround(x: real, n: nat)
    requires x >= 0.0 && Abs(x * 1000.0 - n as real) < 0.5
    ensures Printed(x) == Decimal(false, n)
  {
  }

  predicate Whole(x: real) { (x * 1000.0).Floor as real == x * 1000.0 }

  /** Whole thousandths are told apart. */
  lemma WholeToldApart(x: real, y: real)
    requires Whole(x) && Whole(y) && Printed(x) == Printed(y)
    ensures x == y
  {
    WholePrints(x);
    WholePrints(y);
  }

  lemma WholePrints(x: real)
    requires Whole(x)
    ensures Printed(x).thousandths as real == Abs(x) * 1000.0
  {
    var m := (x * 1000.0).Floor;
    WholeRounds(Abs(x) * 1000.0, if x < 0.0 then -m else m);
    hide RoundHalfEven;
  }

  lemma WholeRounds(y: real, m: int)
    requires y >= 0.0 && y == m as real
    ensures RoundHalfEven(y) == m
  {
  }
}
