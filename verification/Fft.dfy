/**
 The in-place radix-2 transform: a bit-reversal swap loop followed by log2(n)
 rounds of butterflies. Specified by the discrete Fourier sum.
 */
module FastFourier {
  import opened ComplexNumbers

  // ---------------------------------------------------------------------
  // Specification: the DFT sum, and its Horner form
  // ---------------------------------------------------------------------

  /** sum over j < m of s[j] * w^(j*k) */
  function DftSum(s: seq<Complex>, w: Complex, k: nat, m: nat): Complex
    requires m <= |s|
  {
    if m == 0 then ZERO else Add(DftSum(s, w, k, m - 1), Mul(s[m - 1], Pow(w, (m - 1) * k)))
  }

  function Dft(s: seq<Complex>, w: Complex, k: nat): Complex {
    DftSum(s, w, k, |s|)
  }

  /** The polynomial with coefficients s, evaluated at z. */
  function Eval(s: seq<Complex>, z: Complex): Complex {
    if s == [] then ZERO else Add(s[0], Mul(z, Eval(s[1..], z)))
  }

  /** sum over j < |s| of s[j] * z^j, accumulated from the left */
  function PowerSum(s: seq<Complex>, z: Complex): Complex {
    if s == [] then ZERO else Add(PowerSum(s[..|s| - 1], z), Mul(s[|s| - 1], Pow(z, |s| - 1)))
  }

  lemma {:induction false} EvalSnoc(s: seq<Complex>, x: Complex, z: Complex)
    ensures Eval(s + [x], z) == Add(Eval(s, z), Mul(x, Pow(z, |s|)))
  {
    if s == [] {
      assert s + [x] == [x];
      assert [x][1..] == [];
      MulComm(z, ZERO);
    } else {
      assert (s + [x])[1..] == s[1..] + [x];
      EvalSnoc(s[1..], x, z);
      var p := Pow(z, |s| - 1);
      MulDistrib(z, Eval(s[1..], z), Mul(x, p));
      assert Mul(z, Mul(x, p)) == Mul(x, Mul(p, z)) by {
        MulAssoc(x, p, z);
        MulComm(z, Mul(x, p));
      }
    }
  }

  lemma {:induction false} DftSumIsEval(s: seq<Complex>, w: Complex, k: nat, m: nat)
    requires m <= |s|
    ensures DftSum(s, w, k, m) == Eval(s[..m], Pow(w, k))
  {
    if m != 0 {
      DftSumIsEval(s, w, k, m - 1);
      assert s[..m] == s[..m - 1] + [s[m - 1]];
      EvalSnoc(s[..m - 1], s[m - 1], Pow(w, k));
      PowMul(w, k, m - 1);
    }
  }

  function Evens(s: seq<Complex>): (r: seq<Complex>)
    requires |s| % 2 == 0
    ensures |r| == |s| / 2
  {
    seq(|s| / 2, i requires 0 <= i < |s| / 2 => s[2 * i])
  }

  function Odds(s: seq<Complex>): (r: seq<Complex>)
    requires |s| % 2 == 0
    ensures |r| == |s| / 2
  {
    seq(|s| / 2, i requires 0 <= i < |s| / 2 => s[2 * i + 1])
  }

  lemma EvalSingleton(s: seq<Complex>, z: Complex)
    requires |s| == 1
    ensures Eval(s, z) == s[0]
  {
    assert s[1..] == [];
    assert Eval(s[1..], z) == ZERO;
  }

  lemma EvalTwice(s: seq<Complex>, z: Complex)
    requires |s| >= 2
    ensures Eval(s, z) == Add(s[0], Mul(z, Add(s[1], Mul(z, Eval(s[2..], z)))))
  {
    hide Add, Mul;
    assert s[1..][1..] == s[2..];
  }

  lemma EvalNothing(z: Complex)
    ensures Eval([], z) == Add(Eval([], Mul(z, z)), Mul(z, Eval([], Mul(z, z))))
  {
  }

  /** p(z) = even(z^2) + z * odd(z^2) */
  lemma {:induction false} EvalSplit(s: seq<Complex>, z: Complex)
    requires |s| % 2 == 0
    ensures Eval(s, z) == Add(Eval(Evens(s), Mul(z, z)), Mul(z, Eval(Odds(s), Mul(z, z))))
  {
    hide Add, Mul;
    if s == [] {
      EvalNothing(z);
      assert Evens(s) == [] && Odds(s) == [];
    } else {
      var t := s[2..];
      EvalSplit(t, z);
      assert Evens(s)[1..] == Evens(t);
      assert Odds(s)[1..] == Odds(t);
      EvalTwice(s, z);
      SplitAlgebra(s[0], s[1], z, Eval(Evens(t), Mul(z, z)), Eval(Odds(t), Mul(z, z)));
    }
  }

  lemma SplitAlgebra(a: Complex, b: Complex, z: Complex, e: Complex, o: Complex)
    ensures Add(a, Mul(z, Add(b, Mul(z, Add(e, Mul(z, o))))))
         == Add(Add(a, Mul(Mul(z, z), e)), Mul(z, Add(b, Mul(Mul(z, z), o))))
  {
    var zz := Mul(z, z);
    MulDistrib(z, e, Mul(z, o));
    MulDistrib(z, b, Add(Mul(z, e), Mul(z, Mul(z, o))));
    MulDistrib(z, Mul(z, e), Mul(z, Mul(z, o)));
    MulDistrib(z, b, Mul(zz, o));
    MulAssoc(z, z, e);
    MulAssoc(z, z, o);
  }

  // ---------------------------------------------------------------------
  // Bit reversal
  // ---------------------------------------------------------------------

  function Exp2(b: nat): (n: nat)
    ensures n > 0
  {
    if b == 0 then 1 else 2 * Exp2(b - 1)
  }

  /** i with its b low bits in the opposite order. */
  function Rev(b: nat, i: nat): nat {
    if b == 0 then 0 else (if i % 2 == 1 then Exp2(b - 1) else 0) + Rev(b - 1, i / 2)
  }

  lemma {:induction false} RevBound(b: nat, i: nat)
    ensures Rev(b, i) < Exp2(b)
  {
    if b != 0 { RevBound(b - 1, i / 2); }
  }

  /** Rev read from the other end: the top bit of i becomes the low bit. */
  lemma {:induction false} RevTop(b: nat, i: nat)
    requires b > 0 && i < Exp2(b)
    ensures Rev(b, i) == if i < Exp2(b - 1) then 2 * Rev(b - 1, i) else 2 * Rev(b - 1, i - Exp2(b - 1)) + 1
  {
    if b > 1 {
      var h := Exp2(b - 1);
      RevTop(b - 1, i / 2);
      if i >= h {
        assert (i - h) % 2 == i % 2 && (i - h) / 2 == i / 2 - Exp2(b - 2);
      }
    }
  }

  /** Bit reversal is its own inverse. */
  lemma {:induction false} RevInvolution(b: nat, i: nat)
    requires i < Exp2(b)
    ensures Rev(b, i) < Exp2(b) && Rev(b, Rev(b, i)) == i
  {
    RevBound(b, i);
    if b != 0 {
      var h := Exp2(b - 1);
      RevInvolution(b - 1, i / 2);
      var r := Rev(b - 1, i / 2);
      RevTop(b, Rev(b, i));
      if i % 2 == 1 {
        assert Rev(b, i) == h + r;
      } else {
        assert Rev(b, i) == r;
      }
    }
  }

  /** Adding one with the carry running from the top bit downwards. */
  function RevInc(bit: nat, j: nat): nat {
    if bit == 0 then j
    else if j >= bit then RevInc(bit / 2, j - bit)
    else j + bit
  }

  lemma {:induction false} RevSucc(b: nat, i: nat)
    requires i + 1 < Exp2(b)
    ensures Rev(b, i + 1) == RevInc(Exp2(b) / 2, Rev(b, i))
  {
    var h := Exp2(b - 1);
    RevBound(b - 1, i / 2);
    var r := Rev(b - 1, i / 2);
    if i % 2 == 0 {
      assert (i + 1) / 2 == i / 2;
    } else {
      assert (i + 1) / 2 == i / 2 + 1;
      RevSucc(b - 1, i / 2);
    }
  }

  function Permuted(b: nat, s: seq<Complex>): (r: seq<Complex>)
    requires |s| == Exp2(b)
    ensures |r| == |s|
  {
    seq(|s|, i requires 0 <= i < |s| => RevBound(b, i); s[Rev(b, i)])
  }

  lemma PermutedHalvesAt(b: nat, s: seq<Complex>, i: nat)
    requires b > 0 && |s| == Exp2(b) && i < Exp2(b - 1)
    ensures Permuted(b, s)[i] == Permuted(b - 1, Evens(s))[i]
    ensures Permuted(b, s)[Exp2(b - 1) + i] == Permuted(b - 1, Odds(s))[i]
  {
    RevTop(b, i);
    RevTop(b, Exp2(b - 1) + i);
    RevBound(b - 1, i);
  }

  /** The permuted sequence is the permuted evens followed by the permuted odds. */
  lemma PermutedHalves(b: nat, s: seq<Complex>)
    requires b > 0 && |s| == Exp2(b)
    ensures Permuted(b, s)[..Exp2(b - 1)] == Permuted(b - 1, Evens(s))
    ensures Permuted(b, s)[Exp2(b - 1)..] == Permuted(b - 1, Odds(s))
  {
    var h := Exp2(b - 1);
    forall i | 0 <= i < h
      ensures Permuted(b, s)[..h][i] == Permuted(b - 1, Evens(s))[i]
      ensures Permuted(b, s)[h..][i] == Permuted(b - 1, Odds(s))[i]
    {
      PermutedHalvesAt(b, s, i);
    }
  }

  // ---------------------------------------------------------------------
  // The recursive transform on bit-reversed input
  // ---------------------------------------------------------------------

  function Combine(e: seq<Complex>, o: seq<Complex>, w: Complex): (r: seq<Complex>)
    requires |e| == |o|
    ensures |r| == 2 * |e|
  {
    seq(2 * |e|, k requires 0 <= k < 2 * |e| =>
      if k < |e| then Add(e[k], Mul(o[k], Pow(w, k)))
      else Sub(e[k - |e|], Mul(o[k - |e|], Pow(w, k - |e|))))
  }

  function Butterflies(b: nat, p: seq<Complex>, w: nat -> Complex): (r: seq<Complex>)
    requires |p| == Exp2(b)
    ensures |r| == |p|
  {
    if b == 0 then p
    else
      var h := Exp2(b - 1);
      Combine(Butterflies(b - 1, p[..h], w), Butterflies(b - 1, p[h..], w), w(2 * h))
  }

  /** What exp(-2 pi i / size) satisfies for the sizes 2, 4, .., 2^b. */
  ghost predicate Twiddles(b: nat, w: nat -> Complex) {
    b == 0
    || (Pow(w(Exp2(b)), Exp2(b - 1)) == Neg(ONE)
        && (b > 1 ==> Mul(w(Exp2(b)), w(Exp2(b))) == w(Exp2(b - 1)))
        && Twiddles(b - 1, w))
  }

  lemma CombineAt(e: seq<Complex>, o: seq<Complex>, w: Complex, i: nat)
    requires |e| == |o| && i < |e|
    ensures Combine(e, o, w)[i] == Add(e[i], Mul(o[i], Pow(w, i)))
    ensures Combine(e, o, w)[|e| + i] == Sub(e[i], Mul(o[i], Pow(w, i)))
  {
  }

  lemma ButterflyAt(b: nat, s: seq<Complex>, w: nat -> Complex, i: nat)
    requires b > 0 && |s| == Exp2(b) && i < Exp2(b - 1)
    ensures var h := Exp2(b - 1);
            var r := Butterflies(b, Permuted(b, s), w);
            var e := Butterflies(b - 1, Permuted(b - 1, Evens(s)), w)[i];
            var o := Mul(Butterflies(b - 1, Permuted(b - 1, Odds(s)), w)[i], Pow(w(2 * h), i));
            r[i] == Add(e, o) && r[h + i] == Sub(e, o)
  {
    PermutedHalves(b, s);
    var e := Butterflies(b - 1, Permuted(b - 1, Evens(s)), w);
    var o := Butterflies(b - 1, Permuted(b - 1, Odds(s)), w);
    assert Butterflies(b, Permuted(b, s), w) == Combine(e, o, w(2 * Exp2(b - 1)));
    CombineAt(e, o, w(2 * Exp2(b - 1)), i);
  }

  /** The butterfly tree over permuted input evaluates the polynomial at every power of w. */
  lemma {:induction false} ButterfliesEvaluate(b: nat, s: seq<Complex>, w: nat -> Complex, i: nat)
    requires |s| == Exp2(b) && i < |s| && Twiddles(b, w)
    ensures Butterflies(b, Permuted(b, s), w)[i] == Eval(s, Pow(w(Exp2(b)), i))
  {
    hide Mul, Add, Sub, Pow, Butterflies, Permuted, Eval;
    if b == 0 {
      ButterfliesBase(s, w);
    } else {
      var j := if i < Exp2(b - 1) then i else i - Exp2(b - 1);
      ButterfliesEvaluate(b - 1, Evens(s), w, j);
      ButterfliesEvaluate(b - 1, Odds(s), w, j);
      EvaluateStep(b, s, w, j);
    }
  }

  lemma ButterfliesBase(s: seq<Complex>, w: nat -> Complex)
    requires |s| == 1
    ensures Butterflies(0, Permuted(0, s), w)[0] == Eval(s, Pow(w(1), 0))
  {
    EvalSingleton(s, ONE);
  }

  lemma EvaluateStep(b: nat, s: seq<Complex>, w: nat -> Complex, i: nat)
    requires b > 0 && |s| == Exp2(b) && i < Exp2(b - 1) && Twiddles(b, w)
    requires Butterflies(b - 1, Permuted(b - 1, Evens(s)), w)[i] == Eval(Evens(s), Pow(w(Exp2(b - 1)), i))
    requires Butterflies(b - 1, Permuted(b - 1, Odds(s)), w)[i] == Eval(Odds(s), Pow(w(Exp2(b - 1)), i))
    ensures Butterflies(b, Permuted(b, s), w)[i] == Eval(s, Pow(w(Exp2(b)), i))
    ensures Butterflies(b, Permuted(b, s), w)[Exp2(b - 1) + i] == Eval(s, Pow(w(Exp2(b)), Exp2(b - 1) + i))
  {
    hide Mul, Add, Sub, Pow, Butterflies, Permuted, Eval, Twiddles, Evens, Odds, Neg;
    SquaredTwiddle(b, w, i);
    EvalAtOpposite(s, Pow(w(Exp2(b)), i));
    ButterflyAt(b, s, w, i);
    OppositePower(b, w, i);
  }

  lemma OppositePower(b: nat, w: nat -> Complex, i: nat)
    requires b > 0 && Twiddles(b, w)
    ensures Pow(w(Exp2(b)), Exp2(b - 1) + i) == Mul(Pow(w(Exp2(b)), i), Neg(ONE))
  {
    PowAdd(w(Exp2(b)), i, Exp2(b - 1));
  }

  /** Both outputs of one butterfly: the polynomial at z and at -z. */
  lemma EvalAtOpposite(s: seq<Complex>, z: Complex)
    requires |s| % 2 == 0
    ensures var e, o := Eval(Evens(s), Mul(z, z)), Mul(Eval(Odds(s), Mul(z, z)), z);
            Eval(s, z) == Add(e, o) && Eval(s, Mul(z, Neg(ONE))) == Sub(e, o)
  {
    hide Mul, Eval;
    EvalSplit(s, z);
    EvalSplit(s, Mul(z, Neg(ONE)));
    MulNegOne(z, Eval(Odds(s), Mul(z, z)));
    MulComm(z, Eval(Odds(s), Mul(z, z)));
  }

  lemma MulNegOne(z: Complex, o: Complex)
    ensures var y := Mul(z, Neg(ONE)); Mul(y, y) == Mul(z, z) && Mul(y, o) == Neg(Mul(z, o))
  {
    assert Mul(z, Neg(ONE)) == Neg(z);
  }

  /** (w_n^i)^2 = w_(n/2)^i for i < n/2 */
  lemma SquaredTwiddle(b: nat, w: nat -> Complex, i: nat)
    requires b > 0 && Twiddles(b, w) && i < Exp2(b - 1)
    ensures Mul(Pow(w(Exp2(b)), i), Pow(w(Exp2(b)), i)) == Pow(w(Exp2(b - 1)), i)
  {
    var w1 := w(Exp2(b));
    if b == 1 {
      assert i == 0;
    } else {
      PowAdd(w1, i, i);
      assert Mul(ONE, w1) == w1;
      assert Pow(w1, 1) == w1 && Pow(w1, 2) == Mul(w1, w1);
      PowMul(w1, 2, i);
      assert i * 2 == i + i;
    }
  }

  lemma PermutedTransformIsDft(b: nat, s: seq<Complex>, w: nat -> Complex)
    requires |s| == Exp2(b) && Twiddles(b, w)
    ensures forall k :: 0 <= k < |s| ==> Butterflies(b, Permuted(b, s), w)[k] == Dft(s, w(Exp2(b)), k)
  {
    forall k | 0 <= k < |s|
      ensures Butterflies(b, Permuted(b, s), w)[k] == Dft(s, w(Exp2(b)), k)
    {
      ButterfliesEvaluate(b, s, w, k);
      DftSumIsEval(s, w(Exp2(b)), k, |s|);
      assert s[..|s|] == s;
    }
  }

  // ---------------------------------------------------------------------
  // The in-place algorithm
  // ---------------------------------------------------------------------

  /** Bitwise conjunction of two naturals. */
  function BitAnd(a: nat, b: nat): nat {
    if a == 0 || b == 0 then 0
    else 2 * BitAnd(a / 2, b / 2) + (if a % 2 == 1 && b % 2 == 1 then 1 else 0)
  }

  predicate IsPowerOfTwo(n: nat) {
    n == 1 || (n > 1 && n % 2 == 0 && IsPowerOfTwo(n / 2))
  }

  const ALL_ONES: nat := 0xFFFF_FFFF_FFFF_FFFF

  /** The bits of n - 1 in two's complement: all ones at zero. */
  function Pred(n: nat): nat { if n == 0 then ALL_ONES else n - 1 }

  /** The bit test of the source accepts zero and exactly the powers of two. */
  lemma {:induction false} BitTest(n: nat)
    ensures BitAnd(n, Pred(n)) == 0 <==> n == 0 || IsPowerOfTwo(n)
  {
    if n <= 1 {
    } else if n % 2 == 0 {
      assert (n - 1) / 2 == n / 2 - 1;
      BitTest(n / 2);
    } else {
      assert (n - 1) / 2 == n / 2;
      BitAndSelf(n / 2);
    }
  }

  lemma {:induction false} BitAndSelf(n: nat)
    ensures BitAnd(n, n) == n
  {
    if n != 0 { BitAndSelf(n / 2); }
  }

  function Log2(n: nat): (b: nat)
    requires IsPowerOfTwo(n)
    ensures Exp2(b) == n
  {
    if n == 1 then 0 else 1 + Log2(n / 2)
  }

  /** x is a whole number of steps of the given size. */
  predicate Multiple(x: nat, size: nat) {
    x == 0 || (0 < size <= x && Multiple(x - size, size))
  }

  lemma {:induction false} MultipleAdd(x: nat, y: nat, size: nat)
    requires Multiple(x, size) && Multiple(y, size)
    ensures Multiple(x + y, size)
  {
    if x != 0 { MultipleAdd(x - size, y, size); }
  }

  lemma {:induction false} MultipleExp2(s: nat, b: nat)
    requires s <= b
    ensures Multiple(Exp2(b), Exp2(s))
  {
    if s < b {
      MultipleExp2(s, b - 1);
      MultipleAdd(Exp2(b - 1), Exp2(b - 1), Exp2(s));
    }
  }

  /** Every consecutive block of 2^b values of cur is the butterfly tree of that block of p. */
  ghost predicate Blocks(b: nat, cur: seq<Complex>, p: seq<Complex>, w: nat -> Complex)
    decreases |cur|
  {
    |cur| == |p| &&
    (cur == [] || (Exp2(b) <= |cur|
                   && cur[..Exp2(b)] == Butterflies(b, p[..Exp2(b)], w)
                   && Blocks(b, cur[Exp2(b)..], p[Exp2(b)..], w)))
  }

  lemma {:induction false} BlocksOfOne(p: seq<Complex>, w: nat -> Complex)
    ensures Blocks(0, p, p, w)
    decreases |p|
  {
    if p != [] { BlocksOfOne(p[1..], w); }
  }

  lemma {:induction false} BlocksAppend(b: nat, cur: seq<Complex>, p: seq<Complex>, c: seq<Complex>, q: seq<Complex>,
                                        w: nat -> Complex)
    requires Blocks(b, cur, p, w) && |q| == Exp2(b) && c == Butterflies(b, q, w)
    ensures Blocks(b, cur + c, p + q, w)
    decreases |cur|
  {
    hide Butterflies;
    var n := Exp2(b);
    if cur == [] {
      assert cur + c == c && p + q == q;
      assert c[..n] == c && q[..n] == q;
    } else {
      assert (cur + c)[..n] == cur[..n] && (p + q)[..n] == p[..n];
      assert (cur + c)[n..] == cur[n..] + c && (p + q)[n..] == p[n..] + q;
      BlocksAppend(b, cur[n..], p[n..], c, q, w);
    }
  }

  /** s with the two neighbouring blocks of `half` values at `start` combined. */
  function Merged(s: seq<Complex>, start: nat, half: nat, w: Complex): (r: seq<Complex>)
    requires start + 2 * half <= |s|
    ensures |r| == |s|
  {
    s[..start] + Combine(s[start..start + half], s[start + half..start + 2 * half], w) + s[start + 2 * half..]
  }

  /** The first k butterflies of the block at `start` are done: their values come from c, all others from before. */
  ghost predicate Underway(cur: seq<Complex>, was: seq<Complex>, c: seq<Complex>, start: nat, half: nat, k: nat) {
    |cur| == |was| && |c| == 2 * half && k <= half && start + 2 * half <= |was|
    && forall x :: 0 <= x < |cur| ==>
         cur[x] == if start <= x < start + k || start + half <= x < start + half + k then c[x - start] else was[x]
  }

  lemma UnderwayStep(cur: seq<Complex>, was: seq<Complex>, c: seq<Complex>, start: nat, half: nat, k: nat,
                     next: seq<Complex>)
    requires Underway(cur, was, c, start, half, k) && k < half
    requires next == cur[start + k := c[k]][start + k + half := c[half + k]]
    ensures Underway(next, was, c, start, half, k + 1)
  {
  }

  lemma UnderwayDone(cur: seq<Complex>, was: seq<Complex>, start: nat, half: nat, w: Complex)
    requires start + 2 * half <= |was|
    requires Underway(cur, was, Combine(was[start..start + half], was[start + half..start + 2 * half], w), start, half,
                      half)
    ensures cur == Merged(was, start, half, w)
  {
    hide Combine;
  }

  /** One butterfly round over a single block. */
  method CombineBlock(a: array<Complex>, start: nat, half: nat, w: Complex)
    requires start + 2 * half <= a.Length
    modifies a
    ensures a[..] == Merged(old(a[..]), start, half, w)
  {
    hide Mul, Add, Sub, Combine, Pow, Merged;
    PowStep(w, 0);
    var wk := ONE;
    ghost var was := a[..];
    ghost var e, o := was[start..start + half], was[start + half..start + 2 * half];
    ghost var c := Combine(e, o, w);
    assert Underway(a[..], was, c, start, half, 0);
    for k := 0 to half
      invariant wk == Pow(w, k) && Underway(a[..], was, c, start, half, k)
    {
      ghost var cur := a[..];
      BeforeStep(cur, was, c, start, half, k);
      CombineAt(e, o, w, k);
      hide Underway;
      var u := a[start + k];
      var v := Mul(a[start + k + half], wk);
      a[start + k] := Add(u, v);
      a[start + k + half] := Sub(u, v);
      UnderwayStep(cur, was, c, start, half, k, a[..]);
      wk := Mul(wk, w);
      PowStep(w, k);
    }
    UnderwayDone(a[..], was, start, half, w);
  }

  lemma BeforeStep(cur: seq<Complex>, was: seq<Complex>, c: seq<Complex>, start: nat, half: nat, k: nat)
    requires Underway(cur, was, c, start, half, k) && k < half
    ensures cur[start + k] == was[start + k] && cur[start + k + half] == was[start + k + half]
  {
  }

  lemma {:induction false} RevZero(b: nat)
    ensures Rev(b, 0) == 0
  {
    if b != 0 { RevZero(b - 1); }
  }

  /** Below 2^(m+1), testing bit m is comparing with 2^m. */
  lemma {:induction false} TopBit(j: nat, m: nat)
    requires j < Exp2(m + 1)
    ensures BitAnd(j, Exp2(m)) != 0 <==> Exp2(m) <= j
  {
    if m != 0 && j != 0 { TopBit(j / 2, m - 1); }
  }

  /** The carry at bit m - 1: whether it runs on, and what is left to add. */
  lemma CarryStep(m: nat, j: nat)
    requires m > 0 && j < Exp2(m)
    ensures Exp2(m) == 2 * Exp2(m - 1)
    ensures BitAnd(j, Exp2(m - 1)) != 0 <==> Exp2(m - 1) <= j
    ensures Exp2(m - 1) <= j ==> RevInc(Exp2(m - 1), j) == RevInc(Exp2(m - 1) / 2, j - Exp2(m - 1))
    ensures j < Exp2(m - 1) ==> RevInc(Exp2(m - 1), j) == j + Exp2(m - 1)
  {
    TopBit(j, m - 1);
  }

  /** A carry into bit m - 1 of a number of m bits. */
  ghost predicate Carrying(m: nat, j: nat, bit: nat) { j < Exp2(m) && bit == if m == 0 then 0 else Exp2(m - 1) }

  lemma CarryOn(m: nat, j: nat, bit: nat)
    requires Carrying(m, j, bit) && BitAnd(j, bit) != 0
    ensures m > 0 && bit <= j && Carrying(m - 1, j - bit, bit / 2)
    ensures RevInc(bit, j) == RevInc(bit / 2, j - bit)
  {
    hide BitAnd, RevInc, Exp2;
    if m == 0 {
      NothingCarried(j);
    } else {
      CarryStep(m, j);
      if m == 1 { NothingCarried(0); } else { CarryStep(m - 1, j - bit); }
    }
  }

  lemma CarryStops(m: nat, j: nat, bit: nat)
    requires Carrying(m, j, bit) && BitAnd(j, bit) == 0
    ensures RevInc(bit, j) == j + bit
  {
    hide BitAnd, RevInc, Exp2;
    if m == 0 { NothingCarried(j); } else { CarryStep(m, j); }
  }

  lemma CarryStarts(b: nat, n: nat, i: nat)
    requires n == Exp2(b) && 0 < i < n
    ensures Carrying(b, Rev(b, i - 1), n / 2) && RevInc(n / 2, Rev(b, i - 1)) == Rev(b, i)
  {
    RevBound(b, i - 1);
    RevSucc(b, i - 1);
    hide RevInc, Rev;
  }

  /** The carry loop: the reversed counter moves from Rev(i - 1) to Rev(i). */
  method NextReversed(n: nat, j0: nat, ghost b: nat, ghost i: nat) returns (j: nat)
    requires n == Exp2(b) && 0 < i < n && j0 == Rev(b, i - 1)
    ensures j == Rev(b, i)
  {
    hide *;
    CarryStarts(b, n, i);
    j := j0;
    var bit: nat := n / 2;
    ghost var m := b;
    while BitAnd(j, bit) != 0
      invariant Carrying(m, j, bit) && RevInc(bit, j) == Rev(b, i)
      decreases m
    {
      CarryOn(m, j, bit);
      j, bit, m := j - bit, bit / 2, m - 1;
    }
    CarryStops(m, j, bit);
    j := j + bit;
  }

  lemma NothingCarried(j: nat)
    ensures BitAnd(j, 0) == 0 && RevInc(0, j) == j && Exp2(0) == 1
  {
  }

  /** Every index before i has been exchanged with its reverse, and every other one with a reverse before i. */
  ghost predicate Swapped(b: nat, cur: seq<Complex>, was: seq<Complex>, i: nat) {
    |cur| == |was| == Exp2(b)
    && forall x: nat :: x < |cur| ==>
         Rev(b, x) < |was| && cur[x] == if x < i || Rev(b, x) < i then was[Rev(b, x)] else was[x]
  }

  lemma SwapStart(b: nat, was: seq<Complex>)
    requires |was| == Exp2(b)
    ensures Swapped(b, was, was, 1)
  {
    RevZero(b);
    forall x: nat | x < |was| ensures Rev(b, x) < |was| && (Rev(b, x) == 0 ==> x == 0) { RevInvolution(b, x); }
    hide Exp2, Rev;
  }

  lemma SwapAt(b: nat, cur: seq<Complex>, was: seq<Complex>, i: nat, x: nat)
    requires Swapped(b, cur, was, i) && 0 < i < |cur| && x < |cur|
    ensures Rev(b, i) < |cur| && Rev(b, x) < |cur|
    ensures var j := Rev(b, i);
            var next := if i < j then cur[i := cur[j]][j := cur[i]] else cur;
            next[x] == if x < i + 1 || Rev(b, x) < i + 1 then was[Rev(b, x)] else was[x]
  {
    hide Exp2, Rev;
    RevInvolution(b, i);
    RevInvolution(b, x);
    var j, r := Rev(b, i), Rev(b, x);
    assert cur[x] == if x < i || r < i then was[r] else was[x];
    assert cur[i] == if j < i then was[j] else was[i];
    assert cur[j] == if j < i then was[i] else was[j];
    assert r == i <==> x == j;
  }

  lemma SwapStep(b: nat, cur: seq<Complex>, was: seq<Complex>, i: nat)
    requires Swapped(b, cur, was, i) && 0 < i < |cur|
    ensures Rev(b, i) < |cur|
    ensures var j := Rev(b, i); Swapped(b, if i < j then cur[i := cur[j]][j := cur[i]] else cur, was, i + 1)
  {
    SwapAt(b, cur, was, i, i);
    var j := Rev(b, i);
    var next := if i < j then cur[i := cur[j]][j := cur[i]] else cur;
    assert |next| == |was| == Exp2(b);
    hide Exp2, Rev;
    forall x: nat | x < |next|
      ensures Rev(b, x) < |was| && next[x] == if x < i + 1 || Rev(b, x) < i + 1 then was[Rev(b, x)] else was[x]
    {
      SwapAt(b, cur, was, i, x);
    }
  }

  lemma SwapDone(b: nat, cur: seq<Complex>, was: seq<Complex>)
    requires Swapped(b, cur, was, |was|)
    ensures cur == Permuted(b, was)
  {
    hide Exp2, Rev;
  }

  /** The swap loop: afterwards every value sits at the bit-reversed index. */
  method BitReverse(a: array<Complex>, ghost b: nat)
    requires a.Length == 0 || a.Length == Exp2(b)
    modifies a
    ensures a.Length > 0 ==> a[..] == Permuted(b, old(a[..]))
  {
    hide *;
    ghost var was := a[..];
    var n, i, j := a.Length, 1, 0;
    RevZero(b);
    if n > 0 { SwapStart(b, was); }
    while i < n
      invariant 1 <= i && (n > 0 ==> i <= n && Swapped(b, a[..], was, i)) && j == Rev(b, i - 1)
    {
      SwapStep(b, a[..], was, i);
      j := NextReversed(n, j, b, i);
      if i < j {
        a[i], a[j] := a[j], a[i];
      }
      i := i + 1;
    }
    if n > 0 { SwapDone(b, a[..], was); }
  }

  lemma ButterfliesUnfold(b: nat, p: seq<Complex>, w: nat -> Complex)
    requires |p| == 2 * Exp2(b)
    ensures |p| == Exp2(b + 1)
    ensures Butterflies(b + 1, p, w)
         == Combine(Butterflies(b, p[..Exp2(b)], w), Butterflies(b, p[Exp2(b)..], w), w(2 * Exp2(b)))
  {
    hide Combine;
  }

  lemma BlocksParts(b: nat, cur: seq<Complex>, p: seq<Complex>, w: nat -> Complex)
    requires Blocks(b, cur, p, w) && cur != []
    ensures |cur| == |p| && Exp2(b) <= |cur|
    ensures cur[..Exp2(b)] == Butterflies(b, p[..Exp2(b)], w) && Blocks(b, cur[Exp2(b)..], p[Exp2(b)..], w)
  {
    hide Butterflies;
  }

  lemma TwoBlocks(b: nat, cur: seq<Complex>, p: seq<Complex>, w: nat -> Complex)
    requires Blocks(b, cur, p, w) && 2 * Exp2(b) <= |cur|
    ensures |p| == |cur| && 2 * Exp2(b) == Exp2(b + 1)
    ensures Combine(cur[..Exp2(b)], cur[Exp2(b)..2 * Exp2(b)], w(2 * Exp2(b)))
         == Butterflies(b + 1, p[..2 * Exp2(b)], w)
    ensures Blocks(b, cur[2 * Exp2(b)..], p[2 * Exp2(b)..], w)
  {
    hide *;
    var h := Exp2(b);
    BlocksParts(b, cur, p, w);
    BlocksParts(b, cur[h..], p[h..], w);
    ButterfliesUnfold(b, p[..2 * h], w);
    assert p[..2 * h][..h] == p[..h] && p[..2 * h][h..] == p[h..][..h];
    assert cur[h..2 * h] == cur[h..][..h];
    assert cur[h..][h..] == cur[2 * h..] && p[h..][h..] == p[2 * h..];
  }

  /** The values before `start` are in blocks of 2^(b+1), the others still in blocks of 2^b. */
  ghost predicate RoundDone(b: nat, cur: seq<Complex>, p: seq<Complex>, w: nat -> Complex, start: nat) {
    |cur| == |p| && start <= |cur| && Multiple(|cur| - start, Exp2(b + 1))
    && Blocks(b + 1, cur[..start], p[..start], w)
    && Blocks(b, cur[start..], p[start..], w)
  }

  lemma RoundStep(b: nat, cur: seq<Complex>, p: seq<Complex>, w: nat -> Complex, start: nat)
    requires RoundDone(b, cur, p, w, start) && start < |cur|
    ensures start + Exp2(b + 1) <= |cur|
    ensures RoundDone(b, Merged(cur, start, Exp2(b), w(Exp2(b + 1))), p, w, start + Exp2(b + 1))
  {
    hide Combine, Butterflies, Blocks;
    var h, size := Exp2(b), Exp2(b + 1);
    var tail, rest := cur[start..], p[start..];
    var c := Combine(cur[start..start + h], cur[start + h..start + size], w(size));
    assert tail[..h] == cur[start..start + h] && tail[h..size] == cur[start + h..start + size];
    TwoBlocks(b, tail, rest, w);
    BlocksAppend(b + 1, cur[..start], p[..start], c, rest[..size], w);
    var next := Merged(cur, start, h, w(size));
    assert next[..start + size] == cur[..start] + c;
    assert p[..start + size] == p[..start] + rest[..size];
    assert next[start + size..] == tail[size..] && p[start + size..] == rest[size..];
  }

  lemma RoundStart(b: nat, cur: seq<Complex>, p: seq<Complex>, w: nat -> Complex)
    requires Blocks(b, cur, p, w) && Multiple(|cur|, Exp2(b + 1))
    ensures RoundDone(b, cur, p, w, 0)
  {
    assert cur[0..] == cur && p[0..] == p;
  }

  lemma RoundEnd(b: nat, cur: seq<Complex>, p: seq<Complex>, w: nat -> Complex)
    requires RoundDone(b, cur, p, w, |cur|)
    ensures Blocks(b + 1, cur, p, w)
  {
    assert cur[..|cur|] == cur && p[..|cur|] == p;
  }

  /** One round: every block of `half` values is merged with its neighbour. */
  method Round(a: array<Complex>, ghost b: nat, size: nat, w: nat -> Complex, ghost p: seq<Complex>)
    requires size == Exp2(b + 1) && Multiple(a.Length, size)
    requires Blocks(b, a[..], p, w)
    modifies a
    ensures Blocks(b + 1, a[..], p, w)
  {
    hide Merged, Blocks, Multiple;
    var n, start := a.Length, 0;
    RoundStart(b, a[..], p, w);
    while start < n
      invariant start <= n && RoundDone(b, a[..], p, w, start)
    {
      RoundStep(b, a[..], p, w, start);
      CombineBlock(a, start, size / 2, w(size));
      start := start + size;
    }
    RoundEnd(b, a[..], p, w);
  }

  /**
   The whole transform. A length that is neither zero nor a power of two is refused (the source panics);
   otherwise slot k ends up holding the DFT sum of the original contents at k.
   */
  method FFT(a: array<Complex>, w: nat -> Complex) returns (ok: bool)
    requires forall b: nat :: Exp2(b) == a.Length ==> Twiddles(b, w)
    modifies a
    ensures ok <==> a.Length == 0 || IsPowerOfTwo(a.Length)
    ensures !ok ==> a[..] == old(a[..])
    ensures ok ==> forall k :: 0 <= k < a.Length ==> a[k] == Dft(old(a[..]), w(a.Length), k)
  {
    hide Butterflies, Dft, BitAnd, Twiddles;
    var n := a.Length;
    BitTest(n);
    if BitAnd(n, Pred(n)) != 0 { return false; }
    ghost var b, s := if n == 0 then 0 else Log2(n), 0;
    ghost var p := if n == 0 then [] else Permuted(b, a[..]);
    if n > 0 { PermutedTransformIsDft(b, a[..], w); }
    BitReverse(a, b);
    BlocksOfOne(p, w);
    var size := 2;
    while size <= n
      invariant size == Exp2(s + 1) && s <= b
      invariant Blocks(s, a[..], p, w)
      decreases n - size
    {
      Exp2Order(s, b);
      MultipleExp2(s + 1, b);
      Round(a, s, size, w, p);
      size, s := 2 * size, s + 1;
    }
    Exp2Order(s, b);
    assert a[..][..n] == a[..] && p[..n] == p;
    return true;
  }

  lemma {:induction false} Exp2Order(s: nat, b: nat)
    ensures s < b <==> Exp2(s) < Exp2(b)
    ensures s < b ==> Exp2(s + 1) <= Exp2(b)
  {
    if s != 0 && b != 0 { Exp2Order(s - 1, b - 1); }
  }
}
