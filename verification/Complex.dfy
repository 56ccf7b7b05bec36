/** Exact complex numbers, with the few ring laws the transform needs. */
module ComplexNumbers {

  datatype Complex = Complex(re: real, im: real)

  const ZERO := Complex(0.0, 0.0)
  const ONE := Complex(1.0, 0.0)

  function Add(a: Complex, b: Complex): Complex { Complex(a.re + b.re, a.im + b.im) }

  function Sub(a: Complex, b: Complex): Complex { Complex(a.re - b.re, a.im - b.im) }

  function Neg(a: Complex): Complex { Sub(ZERO, a) }

  function Mul(a: Complex, b: Complex): Complex {
    Complex(a.re * b.re - a.im * b.im, a.re * b.im + a.im * b.re)
  }

  function Pow(w: Complex, e: nat): Complex {
    if e == 0 then ONE else Mul(Pow(w, e - 1), w)
  }

  lemma PowStep(w: Complex, e: nat)
    ensures Pow(w, 0) == ONE && Pow(w, e + 1) == Mul(Pow(w, e), w)
  {
  }

  lemma MulComm(a: Complex, b: Complex)
    ensures Mul(a, b) == Mul(b, a)
  {
  }

  lemma MulAssoc(a: Complex, b: Complex, c: Complex)
    ensures Mul(Mul(a, b), c) == Mul(a, Mul(b, c))
  {
    assert Mul(Mul(a, b), c).re == Mul(a, Mul(b, c)).re;
    assert Mul(Mul(a, b), c).im == Mul(a, Mul(b, c)).im;
  }

  lemma MulDistrib(a: Complex, b: Complex, c: Complex)
    ensures Mul(a, Add(b, c)) == Add(Mul(a, b), Mul(a, c))
  {
  }

  /** x^(a+b) = x^a * x^b */
  lemma {:induction false} PowAdd(w: Complex, a: nat, b: nat)
    ensures Pow(w, a + b) == Mul(Pow(w, a), Pow(w, b))
  {
    if b != 0 {
      PowAdd(w, a, b - 1);
      MulAssoc(Pow(w, a), Pow(w, b - 1), w);
    }
  }

  /** (x^a)^b = x^(a*b) */
  lemma {:induction false} PowMul(w: Complex, a: nat, b: nat)
    ensures Pow(Pow(w, a), b) == Pow(w, b * a)
  {
    hide Mul;
    if b != 0 {
      PowMul(w, a, b - 1);
      assert b * a == (b - 1) * a + a;
      PowAdd(w, (b - 1) * a, a);
    }
  }
}
